/**
  Resolving an approval. The service looks only at the decision key of the newest approval, so a
  decision can reach a run that has already ended or a task that was cancelled. `Unsafe` says
  exactly when that breaks the invariant.
 */
module Approvals {
  import opened Tables
  import opened Records
  import opened Controls
  import opened Lifecycle
  import opened Invariants
  import opened Preservation
  import opened Admission

  /** The call gets past every refusal and starts writing. */
  predicate AtDecision(db: Db, run: Id, actor: string, key: string, now: Time) {
    && run < |db.runs| && db.runs[run].task < |db.tasks|
    && Last(db.approvals, ApprovalOf(run)).Some?
    && var a := db.approvals[Last(db.approvals, ApprovalOf(run)).value];
       && a.decisionKey.None? && DecisionProblem(db, run, actor, now).None?
       && (a.expiresAt <= now || !Has(db.approvals, DecidedWith(Named(key))))
  }

  /** The ledger already holds, for this run, exactly what failing it with `code` would file. */
  predicate FiledAlike(db: Db, run: Id, code: string, now: Time)
    requires run < |db.runs|
  {
    var entry := Last(db.ledger, ForRun(run));
    entry.Some? && db.ledger[entry.value].payload == PayloadOf(Finished(db.runs[run], Failed, code, now))
  }

  /** Deciding approval `id` of `run` approves a run that has ended, or restates a cancelled task. */
  predicate Breaks(db: Db, run: Id, id: Id, decision: Verdict, now: Time)
    requires run < |db.runs| && db.runs[run].task < |db.tasks| && id < |db.approvals|
  {
    var a := db.approvals[id];
    var cancelled := db.tasks[db.runs[run].task].cancelKey.Some?;
    if a.action == COMPLETION then cancelled
    else if a.expiresAt <= now then BreaksClosing(db, run, "approval_expired", now)
    else if decision == Approved then Terminal(db.runs[run].status)
    else BreaksClosing(db, run, "approval_rejected", now)
  }

  predicate BreaksClosing(db: Db, run: Id, code: string, now: Time)
    requires run < |db.runs| && db.runs[run].task < |db.tasks|
  {
    && Terminal(db.runs[run].status)
    && db.tasks[db.runs[run].task].cancelKey.Some?
    && FiledAlike(db, run, code, now)
  }

  predicate Unsafe(db: Db, run: Id, actor: string, key: string, decision: Verdict, now: Time) {
    && AtDecision(db, run, actor, key, now)
    && Breaks(db, run, Last(db.approvals, ApprovalOf(run)).value, decision, now)
  }

  lemma NotAtDecision(
    cfg: Settings, db: Db, run: Id, actor: string, key: string, decision: Verdict, reason: string, now: Time)
    requires !AtDecision(db, run, actor, key, now)
    ensures ResolveApproval(cfg, db, run, actor, key, decision, reason, now).db == db
  {
  }

  lemma DecisionBranches(
    cfg: Settings, db: Db, run: Id, actor: string, key: string, decision: Verdict, reason: string, now: Time, id: Id)
    requires AtDecision(db, run, actor, key, now) && Last(db.approvals, ApprovalOf(run)) == Some(id)
    ensures ResolveApproval(cfg, db, run, actor, key, decision, reason, now) ==
            if db.approvals[id].expiresAt <= now then ExpireApproval(cfg, db, run, id, now)
            else Decide(cfg, db, run, id, actor, key, decision, reason, now)
    ensures db.approvals[id].run == run
    ensures db.approvals[id].action == COMPLETION ==> db.runs[run].status == Completed
  {
  }

  /** What either branch leaves behind when it only gates completion. */
  ghost predicate CompletionDecided(db: Db, after: Db, run: Id, id: Id, status: Status)
    requires run < |db.runs| && db.runs[run].task < |db.tasks| && id < |db.approvals|
  {
    && after.runs == db.runs && after.ledger == db.ledger
    && after.tasks == PutTaskStatus(db, db.runs[run].task, status).tasks
    && |after.approvals| == |db.approvals| && ApprovalsOn(db, after, run)
  }

  lemma CompletionKeepsInv(cfg: Settings, db: Db, after: Db, run: Id, id: Id, status: Status)
    requires Inv(cfg, db) && run < |db.runs| && id < |db.approvals|
    requires CompletionDecided(db, after, run, id, status) && status in {Completed, Failed}
    ensures db.tasks[db.runs[run].task].cancelKey.None? ==> Inv(cfg, after) && LeavesCancelled(db, after)
    ensures db.tasks[db.runs[run].task].cancelKey.Some? ==> !Inv(cfg, after)
  {
    var task := db.runs[run].task;
    if db.tasks[task].cancelKey.None? {
      SameRunsKeepCore(cfg, db, after);
      CompletionLeavesCancelled(db, after, run, id, status);
      SealsKept(db, after);
    } else {
      assert !Sealed(after, task);
    }
  }

  lemma CompletionLeavesCancelled(db: Db, after: Db, run: Id, id: Id, status: Status)
    requires Linked(db) && run < |db.runs| && id < |db.approvals| && db.tasks[db.runs[run].task].cancelKey.None?
    requires CompletionDecided(db, after, run, id, status) && status in {Completed, Failed}
    ensures LeavesCancelled(db, after)
  {
    assert Confined(db, after, db.runs[run].task);
    ConfinedLeavesCancelled(db, after, db.runs[run].task);
  }

  /** The run's status was set to failed and its usage filed again, or the ledger objected. */
  lemma CloseActiveRun(
    cfg: Settings, db: Db, staged: Db, run: Id, code: string, actor: string, now: Time, filing: Filing, row: Run)
    requires Core(cfg, db) && run < |db.runs| && staged == db.(approvals := staged.approvals)
    requires SameApprovals(db, staged) && filing == CloseRun(cfg, staged, run, code, actor, now)
    requires row == Finished(db.runs[run], Failed, code, now) && Active(db.runs[run].status)
    ensures filing.Filed? && Ended(db, filing.db, run, row)
    ensures filing.db.approvals == staged.approvals
    ensures filing.db.tasks == PutTaskStatus(db, row.task, Failed).tasks
  {
    FilingEnds(cfg, db, PutTaskStatus(PutRun(staged, run, row), row.task, Failed), run, row, actor, now);
  }

  lemma CloseRunShape(
    cfg: Settings, db: Db, staged: Db, run: Id, code: string, actor: string, now: Time, filing: Filing, row: Run)
    requires Core(cfg, db) && run < |db.runs| && staged == db.(approvals := staged.approvals)
    requires SameApprovals(db, staged)
    requires filing == CloseRun(cfg, staged, run, code, actor, now)
    requires row == Finished(db.runs[run], Failed, code, now)
    ensures Active(db.runs[run].status) ==> filing.Filed? && Ended(db, filing.db, run, row)
    ensures Terminal(db.runs[run].status) ==> (filing.Filed? <==> FiledAlike(db, run, code, now))
    ensures Terminal(db.runs[run].status) && filing.Filed? ==> Edited(db, filing.db, run, row)
    ensures filing.Filed? ==> filing.db.approvals == staged.approvals
    ensures filing.Filed? ==> filing.db.tasks == PutTaskStatus(db, row.task, Failed).tasks
  {
    hide Keyed, Numbered, WithinCaps;
    if Active(db.runs[run].status) {
      CloseActiveRun(cfg, db, staged, run, code, actor, now, filing, row);
    } else {
      EndedRunIsBooked(db, run);
    }
  }

  lemma EndedRunIsBooked(db: Db, run: Id)
    requires Booked(db.runs, db.ledger) && run < |db.runs| && Terminal(db.runs[run].status)
    ensures var e := Last(db.ledger, ForRun(run)); e.Some? && db.ledger[e.value].run == run
  {
    CountZero(db.ledger, ForRun(run));
    var e := Last(db.ledger, ForRun(run));
    assert e.Some?;
  }

  /** A run that is failed by a decision keeps the invariant unless its task was cancelled. */
  lemma FailedRunKeepsInv(cfg: Settings, db: Db, after: Db, run: Id, row: Run)
    requires Inv(cfg, db) && run < |db.runs| && SameRun(db.runs[run], row)
    requires Ended(db, after, run, row) || Edited(db, after, run, row)
    requires ApprovalsOn(db, after, run)
    requires after.tasks == PutTaskStatus(db, row.task, Failed).tasks
    ensures db.tasks[row.task].cancelKey.None? ==> Inv(cfg, after) && LeavesCancelled(db, after)
    ensures db.tasks[row.task].cancelKey.Some? ==> !Inv(cfg, after)
  {
    if db.tasks[row.task].cancelKey.None? {
      RunStepKeepsInv(cfg, db, after, run, row, Failed);
    } else {
      assert !Sealed(after, row.task);
    }
  }

  /** The tables as the caller sees them after a decision tried to fail the run. */
  ghost predicate ClosedOrUnchanged(db: Db, filing: Filing, after: Db) {
    match filing
    case Conflict => after == db
    case Filed(done) => after == done.(audit := after.audit)
  }

  lemma ClosingExact(
    cfg: Settings, db: Db, staged: Db, run: Id, code: string, actor: string, now: Time, filing: Filing, after: Db)
    requires Inv(cfg, db) && run < |db.runs| && staged == db.(approvals := staged.approvals)
    requires |staged.approvals| == |db.approvals| && ApprovalsOn(db, staged, run)
    requires filing == CloseRun(cfg, staged, run, code, actor, now)
    requires ClosedOrUnchanged(db, filing, after)
    ensures if BreaksClosing(db, run, code, now) then !Inv(cfg, after)
            else Inv(cfg, after) && LeavesCancelled(db, after)
  {
    hide WithinCaps, Numbered, Keyed, AllSealed;
    var row := Finished(db.runs[run], Failed, code, now);
    CloseRunShape(cfg, db, staged, run, code, actor, now, filing, row);
    if Active(db.runs[run].status) {
      ActiveTaskIsOpen(cfg, db, run);
    }
    if filing.Filed? {
      FailedRunKeepsInv(cfg, db, after, run, row);
    } else {
      QuietKeepsInv(cfg, db, db);
    }
  }

  lemma ExpiryCloses(cfg: Settings, db: Db, run: Id, id: Id, now: Time, after: Db)
    returns (staged: Db, filing: Filing)
    requires run < |db.runs| && db.runs[run].task < |db.tasks|
    requires id < |db.approvals| && db.approvals[id].run == run && db.approvals[id].action != COMPLETION
    requires after == ExpireApproval(cfg, db, run, id, now).db
    ensures staged == db.(approvals := staged.approvals)
    ensures |staged.approvals| == |db.approvals| && ApprovalsOn(db, staged, run)
    ensures filing == CloseRun(cfg, staged, run, "approval_expired", WATCHDOG, now)
    ensures ClosedOrUnchanged(db, filing, after)
  {
    staged := db.(approvals := db.approvals[id := db.approvals[id].(verdict := Expired)]);
    filing := CloseRun(cfg, staged, run, "approval_expired", WATCHDOG, now);
  }

  lemma ExpiryExact(cfg: Settings, db: Db, run: Id, id: Id, now: Time, after: Db)
    requires Inv(cfg, db) && run < |db.runs| && id < |db.approvals| && db.approvals[id].run == run
    requires db.approvals[id].action != COMPLETION
    requires after == ExpireApproval(cfg, db, run, id, now).db
    ensures if BreaksClosing(db, run, "approval_expired", now) then !Inv(cfg, after)
            else Inv(cfg, after) && LeavesCancelled(db, after)
  {
    var staged, filing := ExpiryCloses(cfg, db, run, id, now, after);
    ClosingExact(cfg, db, staged, run, "approval_expired", WATCHDOG, now, filing, after);
  }

  lemma ApprovingShape(
    cfg: Settings, db: Db, run: Id, id: Id, actor: string, key: string, reason: string, now: Time, row: Run, after: Db)
    requires run < |db.runs| && db.runs[run].task < |db.tasks|
    requires id < |db.approvals| && db.approvals[id].run == run && db.approvals[id].action != COMPLETION
    requires row == db.runs[run].(status := Dispatching, nextAttemptAt := now)
    requires after == Decide(cfg, db, run, id, actor, key, Approved, reason, now).db
    ensures after.runs == db.runs[run := row] && after.ledger == db.ledger
    ensures after.tasks == PutTaskStatus(db, row.task, Records.Dispatched).tasks
    ensures |after.approvals| == |db.approvals| && ApprovalsOn(db, after, run)
  {
  }

  lemma RedispatchKeepsInv(cfg: Settings, db: Db, run: Id, row: Run, after: Db)
    requires Inv(cfg, db) && run < |db.runs| && SameRun(db.runs[run], row) && row.status == Dispatching
    requires Active(db.runs[run].status) && after.runs == db.runs[run := row] && after.ledger == db.ledger
    requires after.tasks == PutTaskStatus(db, row.task, Records.Dispatched).tasks
    requires |after.approvals| == |db.approvals| && ApprovalsOn(db, after, run)
    ensures Inv(cfg, after) && LeavesCancelled(db, after)
  {
    ActiveTaskIsOpen(cfg, db, run);
    assert Edited(db, after, run, row);
    RunStepKeepsInv(cfg, db, after, run, row, Records.Dispatched);
  }

  /** A run put back to dispatching keeps the invariant exactly if it had not ended. */
  lemma RedispatchedExact(cfg: Settings, db: Db, run: Id, row: Run, after: Db)
    requires Inv(cfg, db) && run < |db.runs| && SameRun(db.runs[run], row) && row.status == Dispatching
    requires after.runs == db.runs[run := row] && after.ledger == db.ledger
    requires after.tasks == PutTaskStatus(db, row.task, Records.Dispatched).tasks
    requires |after.approvals| == |db.approvals| && ApprovalsOn(db, after, run)
    ensures if Terminal(db.runs[run].status) then !Inv(cfg, after) else Inv(cfg, after) && LeavesCancelled(db, after)
  {
    hide AllSealed, WithinCaps, Numbered, Keyed, Linked, LeavesCancelled;
    if Active(db.runs[run].status) {
      RedispatchKeepsInv(cfg, db, run, row, after);
    } else {
      assert Count(after.ledger, ForRun(run)) == 1 && after.runs[run].status == Dispatching;
    }
  }

  lemma ApprovingExact(
    cfg: Settings, db: Db, run: Id, id: Id, actor: string, key: string, reason: string, now: Time, after: Db)
    requires Inv(cfg, db) && run < |db.runs| && id < |db.approvals| && db.approvals[id].run == run
    requires db.approvals[id].action != COMPLETION
    requires after == Decide(cfg, db, run, id, actor, key, Approved, reason, now).db
    ensures if Terminal(db.runs[run].status) then !Inv(cfg, after) else Inv(cfg, after) && LeavesCancelled(db, after)
  {
    var row := db.runs[run].(status := Dispatching, nextAttemptAt := now);
    ApprovingShape(cfg, db, run, id, actor, key, reason, now, row, after);
    RedispatchedExact(cfg, db, run, row, after);
  }

  lemma RejectingExact(
    cfg: Settings, db: Db, run: Id, id: Id, actor: string, key: string, reason: string, now: Time, after: Db)
    requires Inv(cfg, db) && run < |db.runs| && id < |db.approvals| && db.approvals[id].run == run
    requires db.approvals[id].action != COMPLETION
    requires after == Decide(cfg, db, run, id, actor, key, Rejected, reason, now).db
    ensures if BreaksClosing(db, run, "approval_rejected", now) then !Inv(cfg, after)
            else Inv(cfg, after) && LeavesCancelled(db, after)
  {
    hide CloseRun, Keyed, Numbered, OneActive, WithinCaps, Booked, Unleased, AllSealed, LeavesCancelled;
    var staged := db.(approvals := db.approvals[id := db.approvals[id].(
      verdict := Rejected, decidedBy := Some(actor), reason := Some(reason), decisionKey := Some(Named(key)))]);
    ClosingExact(cfg, db, staged, run, "approval_rejected", actor, now,
      CloseRun(cfg, staged, run, "approval_rejected", actor, now), after);
  }

  lemma CompletionShape(
    cfg: Settings, db: Db, run: Id, id: Id, actor: string, key: string, decision: Verdict, reason: string, now: Time,
    after: Db)
    requires run < |db.runs| && db.runs[run].task < |db.tasks|
    requires id < |db.approvals| && db.approvals[id].run == run && db.approvals[id].action == COMPLETION
    requires after == if db.approvals[id].expiresAt <= now then ExpireApproval(cfg, db, run, id, now).db
                      else Decide(cfg, db, run, id, actor, key, decision, reason, now).db
    ensures CompletionDecided(db, after, run, id,
              if db.approvals[id].expiresAt > now && decision == Approved then Completed else Failed)
  {
  }

  lemma CompletionExact(
    cfg: Settings, db: Db, run: Id, id: Id, actor: string, key: string, decision: Verdict, reason: string, now: Time,
    after: Db)
    requires Inv(cfg, db) && run < |db.runs| && id < |db.approvals| && db.approvals[id].run == run
    requires db.approvals[id].action == COMPLETION
    requires after == if db.approvals[id].expiresAt <= now then ExpireApproval(cfg, db, run, id, now).db
                      else Decide(cfg, db, run, id, actor, key, decision, reason, now).db
    ensures if db.tasks[db.runs[run].task].cancelKey.Some? then !Inv(cfg, after)
            else Inv(cfg, after) && LeavesCancelled(db, after)
  {
    var status := if db.approvals[id].expiresAt > now && decision == Approved then Completed else Failed;
    CompletionShape(cfg, db, run, id, actor, key, decision, reason, now, after);
    CompletionKeepsInv(cfg, db, after, run, id, status);
  }

  /** Once a decision takes effect it keeps the invariant exactly when it does not break it. */
  lemma DecisionExact(
    cfg: Settings, db: Db, run: Id, id: Id, actor: string, key: string, decision: Verdict, reason: string, now: Time,
    after: Db)
    requires Inv(cfg, db) && run < |db.runs| && id < |db.approvals| && db.approvals[id].run == run
    requires decision in {Approved, Rejected}
    requires after == if db.approvals[id].expiresAt <= now then ExpireApproval(cfg, db, run, id, now).db
                      else Decide(cfg, db, run, id, actor, key, decision, reason, now).db
    ensures if Breaks(db, run, id, decision, now) then !Inv(cfg, after)
            else Inv(cfg, after) && LeavesCancelled(db, after)
  {
    if db.approvals[id].action == COMPLETION {
      CompletionExact(cfg, db, run, id, actor, key, decision, reason, now, after);
    } else if db.approvals[id].expiresAt <= now {
      ExpiryExact(cfg, db, run, id, now, after);
    } else if decision == Approved {
      ApprovingExact(cfg, db, run, id, actor, key, reason, now, after);
    } else {
      RejectingExact(cfg, db, run, id, actor, key, reason, now, after);
    }
  }

  /** Resolving keeps the invariant exactly when the decision is not unsafe. */
  lemma ResolveKeepsInvExactly(
    cfg: Settings, db: Db, run: Id, actor: string, key: string, decision: Verdict, reason: string, now: Time, after: Db)
    requires Inv(cfg, db) && decision in {Approved, Rejected}
    requires after == ResolveApproval(cfg, db, run, actor, key, decision, reason, now).db
    ensures Inv(cfg, after) <==> !Unsafe(db, run, actor, key, decision, now)
    ensures Inv(cfg, after) ==> LeavesCancelled(db, after)
  {
    if !AtDecision(db, run, actor, key, now) {
      NotAtDecision(cfg, db, run, actor, key, decision, reason, now);
      QuietKeepsInv(cfg, db, db);
    } else {
      var id := Last(db.approvals, ApprovalOf(run)).value;
      DecisionBranches(cfg, db, run, actor, key, decision, reason, now, id);
      DecisionExact(cfg, db, run, id, actor, key, decision, reason, now, after);
    }
  }

  /** The guard a caller can apply beforehand: decide only pending approvals of runs that still wait for one. */
  lemma PendingDecisionsAreSafe(
    cfg: Settings, db: Db, run: Id, actor: string, key: string, decision: Verdict, now: Time)
    requires Inv(cfg, db)
    requires AtDecision(db, run, actor, key, now)
    requires var a := db.approvals[Last(db.approvals, ApprovalOf(run)).value];
             a.verdict == Undecided && (a.action == COMPLETION || db.runs[run].status == AwaitingApproval)
    ensures !Unsafe(db, run, actor, key, decision, now)
  {
    var id := Last(db.approvals, ApprovalOf(run)).value;
    var task := db.runs[run].task;
    if db.tasks[task].cancelKey.Some? {
      assert Sealed(db, task);
      assert PendingOn(db.runs, task, db.approvals[id]);
    }
  }
}
