/** Hand-over, cancellation, approval decisions and the timeout sweep. */
module Closing {
  import opened Tables
  import opened Records
  import opened Controls
  import opened Lifecycle
  import opened Invariants
  import opened Preservation

  /** Tasks cancelled before the step are untouched by it. */
  ghost predicate KeepsCancelled(db: Db, after: Db) {
    && |db.tasks| <= |after.tasks|
    && forall t :: 0 <= t < |db.tasks| && db.tasks[t].cancelKey.Some? ==> Frozen(db, after, t)
  }

  // ---- Hand-over ------------------------------------------------------------------------------

  lemma HandoffShape(
    db: Db, task: Id, actor: string, key: string, handoff: Handoff, ttlSeconds: int, now: Time, step: Step, run: Id,
    row: Run)
    requires Linked(db) && step == HandoffTask(db, task, actor, key, handoff, ttlSeconds, now)
    requires step.out.Ok? && !step.out.replayed
    requires Last(db.runs, RunningOf(task)) == Some(run)
    requires row == db.runs[run].(details :=
      db.runs[run].details.(handoff := Some(StoredHandoff(handoff, run, |db.comments|))))
    ensures run < |db.runs| && row.task == task && row.status == Running
    ensures Edited(db, step.db, run, row) && ApprovalsOn(db, step.db, run)
    ensures step.db.tasks == PutTaskStatus(db, task,
              if handoff.outcome == "blocked" then Blocked
              else if db.tasks[task].payload.independentReview then AwaitingApproval else Completed).tasks
  {
  }

  lemma HandoffElse(
    db: Db, task: Id, actor: string, key: string, handoff: Handoff, ttlSeconds: int, now: Time, step: Step)
    requires step == HandoffTask(db, task, actor, key, handoff, ttlSeconds, now)
    ensures step.out.Ok? && !step.out.replayed ==> Last(db.runs, RunningOf(task)).Some?
    ensures !(step.out.Ok? && !step.out.replayed) ==> step.db == db
  {
  }

  lemma HandoffKeepsInv(
    cfg: Settings, db: Db, task: Id, actor: string, key: string, handoff: Handoff, ttlSeconds: int, now: Time,
    step: Step)
    requires Inv(cfg, db) && step == HandoffTask(db, task, actor, key, handoff, ttlSeconds, now)
    ensures Inv(cfg, step.db) && LeavesCancelled(db, step.db)
  {
    hide HandoffTask, LeavesCancelled, AllSealed, Keyed, Numbered, OneActive, WithinCaps, Booked, Unleased;
    HandoffElse(db, task, actor, key, handoff, ttlSeconds, now, step);
    if step.out.Ok? && !step.out.replayed {
      var run := Last(db.runs, RunningOf(task)).value;
      var row := db.runs[run].(details :=
        db.runs[run].details.(handoff := Some(StoredHandoff(handoff, run, |db.comments|))));
      HandoffShape(db, task, actor, key, handoff, ttlSeconds, now, step, run, row);
      ActiveTaskIsOpen(cfg, db, run);
      RunStepKeepsInv(cfg, db, step.db, run, row,
        if handoff.outcome == "blocked" then Blocked
        else if db.tasks[task].payload.independentReview then AwaitingApproval else Completed);
    } else {
      QuietKeepsInv(cfg, db, db);
    }
  }

  // ---- Cancellation ---------------------------------------------------------------------------

  lemma {:induction false} RejectPendingShape(db: Db, n: nat, task: Id, actor: string, key: string, reason: string)
    requires n <= |db.approvals|
    ensures var after := RejectPending(db, n, task, actor, key, reason);
            && after == db.(approvals := after.approvals, audit := after.audit)
            && |after.approvals| == |db.approvals|
            && forall a :: 0 <= a < |db.approvals| ==>
                 after.approvals[a] ==
                 if a < n && PendingOn(db.runs, task, db.approvals[a])
                 then CancelledApproval(a, db.approvals[a], task, actor, key, reason)
                 else db.approvals[a]
  {
    if n > 0 {
      RejectPendingShape(db, n - 1, task, actor, key, reason);
    }
  }

  /** Replaying a cancellation finds nothing pending, so it changes nothing. */
  lemma {:induction false} NothingToReject(db: Db, n: nat, task: Id, actor: string, key: string, reason: string)
    requires n <= |db.approvals|
    requires forall a :: 0 <= a < |db.approvals| ==> !PendingOn(db.runs, task, db.approvals[a])
    ensures RejectPending(db, n, task, actor, key, reason) == db
  {
    if n > 0 {
      NothingToReject(db, n - 1, task, actor, key, reason);
    }
  }

  predicate CancelsAfresh(db: Db, task: Id, key: string) {
    && task < |db.tasks| && db.tasks[task].cancelKey.None? && db.tasks[task].status != Completed
    && !Has(db.tasks, CancelledWith(key))
  }

  function CancelledTask(t: Task, key: string): Task {
    t.(cancelKey := Some(key), status := Cancelled)
  }

  function Stopped(run: Run, reason: string, now: Time): Run {
    Finished(run, Cancelled, "cancelled", now).(summary := Some(reason))
  }

  /** Every pending approval of the task was rejected under a key of its own; no other approval changed. */
  ghost predicate PendingRejected(db: Db, after: Db, task: Id, actor: string, key: string, reason: string) {
    && |after.approvals| == |db.approvals|
    && forall a :: 0 <= a < |db.approvals| ==>
         after.approvals[a] ==
         if PendingOn(db.runs, task, db.approvals[a])
         then CancelledApproval(a, db.approvals[a], task, actor, key, reason)
         else db.approvals[a]
  }

  /** The task is marked, its pending approvals are rejected and its active run, if any, is stopped. */
  ghost predicate CancelEffect(
    db: Db, after: Db, task: Id, actor: string, key: string, reason: string, now: Time)
  {
    && task < |db.tasks|
    && after.tasks == db.tasks[task := CancelledTask(db.tasks[task], key)]
    && PendingRejected(db, after, task, actor, key, reason)
    && match Last(db.runs, ActiveOf(task))
       case None => after.runs == db.runs && after.ledger == db.ledger
       case Some(run) => Ended(db, after, run, Stopped(db.runs[run], reason, now))
  }

  lemma RejectAll(db: Db, after: Db, task: Id, actor: string, key: string, reason: string)
    requires after == RejectPending(db, |db.approvals|, task, actor, key, reason)
    ensures PendingRejected(db, after, task, actor, key, reason)
    ensures after == db.(approvals := after.approvals, audit := after.audit)
  {
    RejectPendingShape(db, |db.approvals|, task, actor, key, reason);
  }

  /** The task is marked and its active run, if any, is stopped and filed. */
  lemma StopShape(
    cfg: Settings, db: Db, marked: Db, task: Id, actor: string, key: string, reason: string, now: Time, filing: Filing)
    requires Core(cfg, db) && task < |db.tasks|
    requires marked == db.(tasks := db.tasks[task := CancelledTask(db.tasks[task], key)])
    requires filing == StopActive(cfg, marked, task, actor, reason, now)
    ensures filing.Filed? && filing.db.tasks == marked.tasks && filing.db.approvals == db.approvals
    ensures match Last(db.runs, ActiveOf(task))
            case None => filing.db.runs == db.runs && filing.db.ledger == db.ledger
            case Some(run) => Ended(db, filing.db, run, Stopped(db.runs[run], reason, now))
  {
    match Last(db.runs, ActiveOf(task))
    case None =>
    case Some(run) =>
      var row := Stopped(db.runs[run], reason, now);
      FilingEnds(cfg, db, PutRun(marked, run, row), run, row, actor, now);
  }

  /** Rejecting the pending approvals completes the effect, whether or not a run was stopped. */
  lemma RejectionCompletes(
    db: Db, stopped: Db, after: Db, task: Id, actor: string, key: string, reason: string, now: Time)
    requires Linked(db) && task < |db.tasks|
    requires stopped.tasks == db.tasks[task := CancelledTask(db.tasks[task], key)]
    requires stopped.approvals == db.approvals
    requires match Last(db.runs, ActiveOf(task))
             case None => stopped.runs == db.runs && stopped.ledger == db.ledger
             case Some(run) => Ended(db, stopped, run, Stopped(db.runs[run], reason, now))
    requires PendingRejected(stopped, after, task, actor, key, reason)
    requires after == stopped.(approvals := after.approvals, audit := after.audit)
    ensures CancelEffect(db, after, task, actor, key, reason, now)
  {
    forall a | 0 <= a < |db.approvals|
      ensures PendingOn(stopped.runs, task, db.approvals[a]) == PendingOn(db.runs, task, db.approvals[a])
    {
    }
  }

  lemma CancelShape(
    cfg: Settings, db: Db, task: Id, actor: string, key: string, reason: string, now: Time, step: Step)
    requires Core(cfg, db) && CancelsAfresh(db, task, key)
    requires step == CancelTask(cfg, db, task, actor, key, reason, now)
    ensures step.out == Ok(task, false) && CancelEffect(db, step.db, task, actor, key, reason, now)
  {
    var marked := db.(tasks := db.tasks[task := CancelledTask(db.tasks[task], key)]);
    var filing := StopActive(cfg, marked, task, actor, reason, now);
    StopShape(cfg, db, marked, task, actor, key, reason, now, filing);
    var rejected := RejectPending(filing.db, |filing.db.approvals|, task, actor, key, reason);
    RejectAll(filing.db, rejected, task, actor, key, reason);
    RejectionCompletes(db, filing.db, step.db, task, actor, key, reason, now);
  }

  lemma CancelElse(
    cfg: Settings, db: Db, task: Id, actor: string, key: string, reason: string, now: Time, step: Step)
    requires !CancelsAfresh(db, task, key) && step == CancelTask(cfg, db, task, actor, key, reason, now)
    ensures step.db == db
         || (task < |db.tasks| && db.tasks[task].cancelKey.Some?
             && step.db == RejectPending(db, |db.approvals|, task, actor, key, reason))
  {
  }

  lemma CancelKeepsCore(
    cfg: Settings, db: Db, after: Db, task: Id, actor: string, key: string, reason: string, now: Time)
    requires Core(cfg, db) && CancelEffect(db, after, task, actor, key, reason, now)
    ensures Core(cfg, after)
  {
    var active := Last(db.runs, ActiveOf(task));
    if active.None? {
      SameRunsKeepCore(cfg, db, after);
    } else {
      EndedKeepsCore(cfg, db, after, active.value, Stopped(db.runs[active.value], reason, now));
    }
  }

  lemma CancelSeals(db: Db, after: Db, task: Id, actor: string, key: string, reason: string, now: Time)
    requires Linked(db) && OneActive(db.runs) && CancelEffect(db, after, task, actor, key, reason, now)
    ensures Sealed(after, task)
  {
    forall i | 0 <= i < |after.runs| && after.runs[i].task == task ensures !Active(after.runs[i].status) {
      assert ActiveOf(task)(db.runs[i]) == (db.runs[i].task == task && Active(db.runs[i].status));
    }
    forall a | 0 <= a < |after.approvals| ensures !PendingOn(after.runs, task, after.approvals[a]) {
      assert PendingOn(db.runs, task, db.approvals[a]) || after.approvals[a] == db.approvals[a];
    }
  }

  lemma CancelElsewhere(db: Db, after: Db, task: Id, actor: string, key: string, reason: string, now: Time)
    requires Linked(db) && CancelEffect(db, after, task, actor, key, reason, now)
    ensures Elsewhere(db, after, task)
  {
  }

  lemma CancelKeepsInv(
    cfg: Settings, db: Db, task: Id, actor: string, key: string, reason: string, now: Time, step: Step)
    requires Inv(cfg, db) && step == CancelTask(cfg, db, task, actor, key, reason, now)
    ensures Inv(cfg, step.db) && KeepsCancelled(db, step.db)
  {
    if CancelsAfresh(db, task, key) {
      CancelShape(cfg, db, task, actor, key, reason, now, step);
      CancelKeepsCore(cfg, db, step.db, task, actor, key, reason, now);
      CancelSeals(db, step.db, task, actor, key, reason, now);
      CancelElsewhere(db, step.db, task, actor, key, reason, now);
      CancelFreezesOthers(db, step.db, task);
    } else {
      CancelAgainIsQuiet(cfg, db, task, actor, key, reason, now, step);
    }
  }

  /** A repeated or refused cancellation changes nothing: a cancelled task has nothing left to reject. */
  lemma CancelAgainIsQuiet(
    cfg: Settings, db: Db, task: Id, actor: string, key: string, reason: string, now: Time, step: Step)
    requires AllSealed(db) && !CancelsAfresh(db, task, key)
    requires step == CancelTask(cfg, db, task, actor, key, reason, now)
    ensures step.db == db
  {
    CancelElse(cfg, db, task, actor, key, reason, now, step);
    if task < |db.tasks| && db.tasks[task].cancelKey.Some? {
      assert Sealed(db, task);
      NothingToReject(db, |db.approvals|, task, actor, key, reason);
    }
  }

  lemma CancelFreezesOthers(db: Db, after: Db, task: Id)
    requires Linked(db) && AllSealed(db) && Elsewhere(db, after, task)
    requires db.tasks[task].cancelKey.None? && Sealed(after, task)
    ensures AllSealed(after) && KeepsCancelled(db, after)
  {
    forall t | 0 <= t < |db.tasks| && t != task ensures Frozen(db, after, t) {
      ElsewhereFrozen(db, after, task, t);
    }
    forall t | 0 <= t < |after.tasks| && after.tasks[t].cancelKey.Some? ensures Sealed(after, t) {
      if t != task {
        FrozenStaysSealed(db, after, t);
      }
    }
  }

  // ---- The timeout sweep ----------------------------------------------------------------------

  lemma {:induction false} OverdueRunsAre(runs: seq<Run>, now: Time, ids: seq<Id>)
    requires ids == OverdueRuns(runs, now)
    ensures forall k :: 0 <= k < |ids| ==> ids[k] < |runs| && Overdue(runs[ids[k]], now)
    ensures forall j, k :: 0 <= j < k < |ids| ==> ids[j] < ids[k]
    ensures forall i :: 0 <= i < |runs| && Overdue(runs[i], now) ==> i in ids
  {
    if runs != [] {
      OverdueRunsAre(runs[..|runs| - 1], now, OverdueRuns(runs[..|runs| - 1], now));
    }
  }

  /** What the sweep files is the run it just stopped: the verdict in between touches only circuits and audit. */
  lemma TimeOutFiles(cfg: Settings, cat: Catalog, db: Db, run: Id, actor: string, now: Time, row: Run, filing: Filing)
    returns (judged: Db)
    requires run < |db.runs| && db.runs[run].task < |db.tasks|
    requires row == Finished(db.runs[run], TimedOut, "timeout", now) && filing == TimeOut(cfg, cat, db, run, actor, now)
    ensures judged == PutTaskStatus(PutRun(db, run, row), row.task, TimedOut).(
                      circuits := judged.circuits, audit := judged.audit)
    ensures filing == Ingest(cfg, judged, run, actor, now)
  {
    var stopped := Log(PutTaskStatus(PutRun(db, run, row), row.task, TimedOut), actor, "run.timed_out", RunRow(run));
    RecordOutcomeFrame(cfg, cat, stopped, run, actor, now);
    judged := RecordOutcome(cfg, cat, stopped, run, actor, now);
  }

  lemma TimeOutShape(cfg: Settings, db: Db, judged: Db, run: Id, actor: string, now: Time, row: Run, filing: Filing)
    requires Core(cfg, db) && run < |db.runs| && Active(db.runs[run].status)
    requires row == Finished(db.runs[run], TimedOut, "timeout", now)
    requires judged == PutTaskStatus(PutRun(db, run, row), row.task, TimedOut).(
                       circuits := judged.circuits, audit := judged.audit)
    requires filing == Ingest(cfg, judged, run, actor, now)
    ensures filing.Filed? && Ended(db, filing.db, run, row) && filing.db.approvals == db.approvals
    ensures filing.db.tasks == PutTaskStatus(db, row.task, TimedOut).tasks
  {
    FilingEnds(cfg, db, judged, run, row, actor, now);
  }

  lemma TimeOutKeepsInv(cfg: Settings, cat: Catalog, db: Db, run: Id, actor: string, now: Time, filing: Filing)
    requires Inv(cfg, db) && run < |db.runs| && Active(db.runs[run].status)
    requires filing == TimeOut(cfg, cat, db, run, actor, now)
    ensures filing.Filed? && Inv(cfg, filing.db) && LeavesCancelled(db, filing.db)
    ensures filing.db.runs == db.runs[run := Finished(db.runs[run], TimedOut, "timeout", now)]
    ensures filing.db.approvals == db.approvals && SameTasks(db.tasks, filing.db.tasks)
  {
    var row := Finished(db.runs[run], TimedOut, "timeout", now);
    var judged := TimeOutFiles(cfg, cat, db, run, actor, now, row, filing);
    TimeOutShape(cfg, db, judged, run, actor, now, row, filing);
    ActiveTaskIsOpen(cfg, db, run);
    RunStepKeepsInv(cfg, db, filing.db, run, row, TimedOut);
  }

  lemma LeavesTransitive(a: Db, b: Db, c: Db)
    requires Linked(a) && LeavesCancelled(a, b) && LeavesCancelled(b, c)
    ensures LeavesCancelled(a, c)
  {
    forall t | 0 <= t < |a.tasks| && a.tasks[t].cancelKey.Some? ensures Frozen(a, c, t) {
      FrozenTransitive(a, b, c, t);
    }
  }

  /** Exactly the listed runs were timed out. */
  ghost predicate TimedOutExactly(db: Db, after: Db, ids: seq<Id>, now: Time) {
    && |after.runs| == |db.runs| && after.approvals == db.approvals && SameTasks(db.tasks, after.tasks)
    && forall i :: 0 <= i < |db.runs| ==>
         after.runs[i] == if i in ids then Finished(db.runs[i], TimedOut, "timeout", now) else db.runs[i]
  }

  ghost predicate DistinctActive(db: Db, ids: seq<Id>) {
    && (forall k :: 0 <= k < |ids| ==> ids[k] < |db.runs| && Active(db.runs[ids[k]].status))
    && (forall j, k :: 0 <= j < k < |ids| ==> ids[j] != ids[k])
  }

  lemma TailStillActive(db: Db, next: Db, ids: seq<Id>, now: Time)
    requires ids != [] && DistinctActive(db, ids)
    requires next.runs == db.runs[ids[0] := Finished(db.runs[ids[0]], TimedOut, "timeout", now)]
    ensures DistinctActive(next, ids[1..]) && ids[0] !in ids[1..]
  {
  }

  /** The sweep never aborts: it times out every listed run, and only those. */
  lemma {:induction false} TimeOutEachKeepsInv(
    cfg: Settings, cat: Catalog, db: Db, ids: seq<Id>, actor: string, now: Time, sweep: Sweep)
    requires Inv(cfg, db)
    requires DistinctActive(db, ids)
    requires sweep == TimeOutEach(cfg, cat, db, ids, actor, now)
    ensures sweep.Swept? && Inv(cfg, sweep.db) && LeavesCancelled(db, sweep.db)
    ensures TimedOutExactly(db, sweep.db, ids, now)
    decreases |ids|
  {
    if ids == [] {
      QuietKeepsInv(cfg, db, db);
    } else {
      var filing := TimeOut(cfg, cat, db, ids[0], actor, now);
      TimeOutKeepsInv(cfg, cat, db, ids[0], actor, now, filing);
      TailStillActive(db, filing.db, ids, now);
      TimeOutEachKeepsInv(cfg, cat, filing.db, ids[1..], actor, now, sweep);
      LeavesTransitive(db, filing.db, sweep.db);
      OneMoreTimedOut(db, filing.db, sweep.db, ids, now);
    }
  }

  lemma OneMoreTimedOut(db: Db, next: Db, after: Db, ids: seq<Id>, now: Time)
    requires ids != [] && ids[0] < |db.runs| && ids[0] !in ids[1..]
    requires next.runs == db.runs[ids[0] := Finished(db.runs[ids[0]], TimedOut, "timeout", now)]
    requires next.approvals == db.approvals && SameTasks(db.tasks, next.tasks)
    requires TimedOutExactly(next, after, ids[1..], now)
    ensures TimedOutExactly(db, after, ids, now)
  {
    assert ids == [ids[0]] + ids[1..];
  }

  /** After a sweep no run is overdue, and no other run was touched. */
  lemma SweepKeepsInv(cfg: Settings, cat: Catalog, db: Db, actor: string, now: Time, step: Step)
    requires Inv(cfg, db) && step == ExpireDueRuns(cfg, cat, db, actor, now)
    ensures Inv(cfg, step.db) && LeavesCancelled(db, step.db) && step.out.Ok?
    ensures |step.db.runs| == |db.runs| && step.db.approvals == db.approvals && SameTasks(db.tasks, step.db.tasks)
    ensures forall i :: 0 <= i < |db.runs| ==>
              step.db.runs[i] ==
              if Overdue(db.runs[i], now) then Finished(db.runs[i], TimedOut, "timeout", now) else db.runs[i]
  {
    var ids := OverdueRuns(db.runs, now);
    OverdueRunsAre(db.runs, now, ids);
    TimeOutEachKeepsInv(cfg, cat, db, ids, actor, now, TimeOutEach(cfg, cat, db, ids, actor, now));
  }
}
