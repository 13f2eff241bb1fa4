/**
  The lifecycle services as they run: one session over mutable tables, each method editing rows
  step by step. Every method is proved to commit exactly the step of module Lifecycle.
 */
module ControlPlane {
  import opened Tables
  import opened Records
  import opened Limits
  import opened Controls
  import opened Lifecycle

  class Session {
    const cfg: Settings
    var tasks: seq<Task>
    var runs: seq<Run>
    var approvals: seq<Approval>
    var comments: seq<Comment>
    var ledger: seq<LedgerEntry>
    var circuits: map<(string, string), Circuit>
    var audit: seq<Audit>

    constructor (cfg: Settings)
      ensures this.cfg == cfg && Snapshot() == EMPTY
    {
      this.cfg := cfg;
      tasks, runs, approvals, comments, ledger, circuits, audit := [], [], [], [], [], map[], [];
    }

    /** The tables as one value. */
    function Snapshot(): Db
      reads this
    {
      Db(tasks, runs, approvals, comments, ledger, circuits, audit)
    }

    method Restore(db: Db)
      modifies this
      ensures Snapshot() == db
    {
      tasks, runs, approvals, comments, ledger, circuits, audit :=
        db.tasks, db.runs, db.approvals, db.comments, db.ledger, db.circuits, db.audit;
    }

    method AppendAudit(actor: string, event: string, subject: Subject)
      modifies this
      ensures Snapshot() == Log(old(Snapshot()), actor, event, subject)
    {
      audit := audit + [Audit(actor, event, subject)];
    }

    method SaveRun(run: Id, row: Run)
      requires run < |runs|
      modifies this
      ensures Snapshot() == PutRun(old(Snapshot()), run, row)
    {
      runs := runs[run := row];
    }

    method SaveApproval(id: Id, row: Approval)
      requires id < |approvals|
      modifies this
      ensures Snapshot() == old(Snapshot()).(approvals := old(approvals)[id := row])
    {
      approvals := approvals[id := row];
    }

    method SetTaskStatus(task: Id, status: Status)
      requires task < |tasks|
      modifies this
      ensures Snapshot() == PutTaskStatus(old(Snapshot()), task, status)
    {
      tasks := tasks[task := tasks[task].(status := status)];
    }

    // ---- Leases -------------------------------------------------------------------------------

    method ClaimDispatchingRuns(owner: string, duration: Time, limit: int, locked: set<Id>, now: Time)
      returns (out: Outcome, claimed: seq<Id>)
      modifies this
      ensures Step(Snapshot(), out) == ClaimRuns(old(Snapshot()), owner, duration, limit, locked, now)
      ensures out.Ok? ==> claimed == ClaimQuery(old(runs), locked, now, limit)
      ensures out.Refused? ==> claimed == []
    {
      claimed := [];
      if Blank(owner) {
        return Refused("invalid_lease_owner"), [];
      }
      if limit < 1 {
        return Refused("invalid_claim_limit"), [];
      }
      if duration <= 0 {
        return Refused("invalid_lease_duration"), [];
      }
      var expires := now + duration;
      claimed := ClaimQuery(runs, locked, now, limit);
      ClaimQueryInRange(runs, locked, now, limit);
      for k := 0 to |claimed|
        invariant |runs| == |old(runs)|
        invariant Snapshot() == ClaimEach(old(Snapshot()), claimed[..k], owner, now, expires)
      {
        var i := claimed[k];
        assert i in claimed;
        var run := runs[i];
        run := run.(lease := Some(Lease(owner, now, expires, now)));
        run := run.(dispatchAttempts := run.dispatchAttempts + 1);
        SaveRun(i, run);
        AppendAudit(owner, "run.claimed", RunRow(i));
        assert claimed[..k + 1][..k] == claimed[..k];
      }
      assert claimed[..|claimed|] == claimed;
      out := Ok(|claimed|, false);
    }

    method HeartbeatRunLease(run: Id, owner: string, duration: Time, now: Time) returns (out: Outcome)
      modifies this
      ensures Step(Snapshot(), out) == Heartbeat(old(Snapshot()), run, owner, duration, now)
    {
      if duration <= 0 {
        return Refused("invalid_lease_duration");
      }
      if run >= |runs| {
        return Refused("not_found");
      }
      var problem := LeaseProblem(runs[run], owner, now);
      if problem.Some? {
        return Refused(problem.value);
      }
      var lease := runs[run].lease.value;
      lease := lease.(heartbeat := now);
      lease := lease.(expires := now + duration);
      SaveRun(run, runs[run].(lease := Some(lease)));
      out := Ok(run, false);
    }

    method ReleaseRunLease(run: Id, owner: string, nextAttemptAt: Time, now: Time) returns (out: Outcome)
      modifies this
      ensures Step(Snapshot(), out) == Release(old(Snapshot()), run, owner, nextAttemptAt, now)
    {
      if run >= |runs| {
        return Refused("not_found");
      }
      var problem := LeaseProblem(runs[run], owner, now);
      if problem.Some? {
        return Refused(problem.value);
      }
      var row := runs[run].(lease := None);
      row := row.(nextAttemptAt := nextAttemptAt);
      SaveRun(run, row);
      AppendAudit(owner, "run.lease_released", RunRow(run));
      out := Ok(run, false);
    }

    // ---- Tasks and dispatch -------------------------------------------------------------------

    method CreateTask(actor: string, key: Key, payload: TaskPayload) returns (out: Outcome)
      modifies this
      ensures Step(Snapshot(), out) == Lifecycle.CreateTask(old(Snapshot()), actor, key, payload)
    {
      var existing := Last(tasks, TaskKeyed(key));
      if existing.Some? {
        var task := tasks[existing.value];
        if task.payload != payload || task.requester != actor {
          return Refused("idempotency_conflict");
        }
        return Ok(existing.value, true);
      }
      if exists d :: d in payload.dependencies && d >= |tasks| {
        return Refused("dependency_not_found");
      }
      if payload.parent.Some? && payload.parent.value >= |tasks| {
        return Refused("integrity_error");
      }
      var id := |tasks|;
      tasks := tasks + [Task(actor, key, payload, Pending, None)];
      AppendAudit(actor, "task.created", TaskRow(id));
      out := Ok(id, false);
    }

    method EnforceDispatchControls(
      cat: Catalog, task: Id, worker: string, profile: string, actor: string, now: Time)
      returns (gate: Gate)
      requires task < |tasks|
      modifies this
      ensures gate == Gatekeep(cfg, cat, old(Snapshot()), task, worker, profile, now)
      ensures Snapshot() ==
              if gate.Deny? then Log(old(Snapshot()), actor, "dispatch.control_denied", TaskRow(task))
              else if gate.overSoftLimit then Log(old(Snapshot()), actor, "budget.soft_exceeded", TaskRow(task))
              else old(Snapshot())
    {
      var slug := WithoutPrefix(worker, "agent:");
      var limits := ResolveLimits(cfg, cat.budgets, ScopeOf(tasks[task], worker, profile));
      var load := LoadOf(cfg, Snapshot(), task, limits.windowSeconds, now);
      if profile in cat.profiles && !cat.profiles[profile].enabled {
        gate := Deny("execution_profile_unavailable");
      } else if slug in cat.allowed && profile !in cat.allowed[slug] {
        gate := Deny("execution_profile_denied");
      } else if profile in cat.profiles && cat.profiles[profile].effort in {"xhigh", "max", "ultra"} {
        gate := Deny("reasoning_effort_denied");
      } else if (worker, profile) in circuits && circuits[(worker, profile)].open {
        gate := Deny("circuit_open");
      } else if Has(ledger, Exhausted(cfg.project, now)) {
        gate := Deny("quota_exhausted");
      } else {
        var code := OverLimit(limits, load);
        gate := if code.Some? then Deny(code.value)
                else Admit(limits.softTokens.Some? && load.projected >= limits.softTokens.value);
      }
      if gate.Deny? {
        AppendAudit(actor, "dispatch.control_denied", TaskRow(task));
      } else if gate.overSoftLimit {
        AppendAudit(actor, "budget.soft_exceeded", TaskRow(task));
      }
    }

    method InsertRun(task: Id, actor: string, key: Key, p: DispatchPayload, now: Time)
      requires task < |tasks|
      modifies this
      ensures Snapshot() == Launch(old(Snapshot()), task, actor, key, p, now)
    {
      var attempt := LastAttempt(runs, task) + 1;
      var timeoutAt := now + Seconds(p.timeoutSeconds);
      if tasks[task].payload.deadline.Some? {
        timeoutAt := Min(timeoutAt, tasks[task].payload.deadline.value);
      }
      var id := |runs|;
      runs := runs + [Run(task, attempt, p.worker, p.profile, None, key, p,
        if p.requiresApproval then AwaitingApproval else Dispatching,
        0, now, None, timeoutAt, None, None, None, None, None, UNREPORTED, NO_DETAILS, now)];
      if p.requiresApproval {
        approvals := approvals + [
          Approval(id, p.approvalAction, Undecided, actor, now + Seconds(p.approvalTtlSeconds), None, None, None)];
        SetTaskStatus(task, AwaitingApproval);
      } else {
        SetTaskStatus(task, Dispatched);
      }
      AppendAudit(actor, "task.dispatched", RunRow(id));
    }

    method DispatchTask(cat: Catalog, task: Id, actor: string, key: Key, p: DispatchPayload, now: Time)
      returns (out: Outcome)
      modifies this
      ensures Step(Snapshot(), out) == Lifecycle.DispatchTask(cfg, cat, old(Snapshot()), task, actor, key, p, now)
    {
      var existing := Last(runs, RunKeyed(key));
      if existing.Some? {
        var run := runs[existing.value];
        if run.task != task || run.request != p {
          return Refused("idempotency_conflict");
        }
        return Ok(existing.value, true);
      }
      out := DispatchNew(cat, task, actor, key, p, now);
    }

    method DispatchNew(cat: Catalog, task: Id, actor: string, key: Key, p: DispatchPayload, now: Time)
      returns (out: Outcome)
      modifies this
      ensures Step(Snapshot(), out) == Lifecycle.DispatchNew(cfg, cat, old(Snapshot()), task, actor, key, p, now)
    {
      if task >= |tasks| {
        return Refused("not_found");
      }
      var row := tasks[task];
      if row.status !in {Pending, Blocked, Failed, TimedOut} {
        return Refused("invalid_transition");
      }
      if row.payload.independentReview && row.payload.reviewer == Some(p.worker) {
        return Refused("self_review_denied");
      }
      if Has(row.payload.dependencies, Unmet(tasks)) {
        SetTaskStatus(task, Blocked);
        return Refused("dependency_unmet");
      }
      if Has(runs, ActiveOf(task)) {
        return Refused("run_already_active");
      }
      var gate := EnforceDispatchControls(cat, task, p.worker, p.profile, actor, now);
      if gate.Deny? {
        return Refused(gate.code);
      }
      out := Ok(|runs|, false);
      InsertRun(task, actor, key, p, now);
    }

    // ---- Outcome accounting -------------------------------------------------------------------

    method RecordRunOutcome(cat: Catalog, run: Id, actor: string, now: Time)
      requires run < |runs| && runs[run].task < |tasks|
      modifies this
      ensures Snapshot() == RecordOutcome(cfg, cat, old(Snapshot()), run, actor, now)
    {
      var row := runs[run];
      var profile := ProfileOf(row);
      var at := (row.worker, profile);
      var circuit, trips := FRESH_CIRCUIT, false;
      if at in circuits {
        circuit := circuits[at];
      }
      var limits := ResolveLimits(cfg, cat.budgets, ScopeOf(tasks[row.task], row.worker, profile));
      circuit, trips := UpdateCircuit(circuit, row, limits, now);
      if trips {
        AppendAudit(actor, "circuit.opened", CircuitRow(row.worker, profile));
      }
      circuits := circuits[at := circuit];
    }

    method IngestRunUsage(run: Id, actor: string, now: Time) returns (filed: bool)
      requires run < |runs| && runs[run].task < |tasks|
      modifies this
      ensures filed <==> Ingest(cfg, old(Snapshot()), run, actor, now).Filed?
      ensures filed ==> Snapshot() == Ingest(cfg, old(Snapshot()), run, actor, now).db
    {
      var existing := Last(ledger, ForRun(run));
      if existing.Some? {
        return ledger[existing.value].payload == PayloadOf(runs[run]);
      }
      var entry := EntryFor(cfg, tasks, run, runs[run], now);
      var id := |ledger|;
      ledger := ledger + [entry];
      AppendAudit(actor, "usage.ingested", LedgerRow(id));
      filed := true;
    }

    method MoveRow(run: Id, to: Status, code: Option<string>, summary: Option<string>, now: Time)
      requires run < |runs|
      modifies this
      ensures Snapshot() == PutRun(old(Snapshot()), run, Moved(old(runs[run]), to, code, summary, now))
    {
      var row := runs[run].(status := to);
      row := row.(errorCode := code);
      row := row.(summary := summary);
      if to == Running && row.startedAt.None? {
        row := row.(startedAt := Some(now));
      }
      if Terminal(to) {
        row := row.(finishedAt := Some(now));
        row := row.(lease := None);
      }
      SaveRun(run, row);
    }

    method TransitionRun(
      cat: Catalog, run: Id, to: Status, actor: string, code: Option<string>, summary: Option<string>, now: Time)
      returns (out: Outcome)
      modifies this
      ensures Step(Snapshot(), out) ==
              Lifecycle.TransitionRun(cfg, cat, old(Snapshot()), run, to, actor, code, summary, now)
    {
      if run >= |runs| {
        return Refused("not_found");
      }
      if !MayMove(runs[run].status, to) {
        return Refused("invalid_transition");
      }
      if runs[run].task >= |tasks| {
        return Refused("not_found");
      }
      out := MoveOrUndo(cat, run, to, actor, code, summary, now);
    }

    method MoveOrUndo(
      cat: Catalog, run: Id, to: Status, actor: string, code: Option<string>, summary: Option<string>, now: Time)
      returns (out: Outcome)
      requires run < |runs| && runs[run].task < |tasks|
      modifies this
      ensures Step(Snapshot(), out) == Concluded(
                old(Snapshot()), run, MoveRun(cfg, cat, old(Snapshot()), run, to, actor, code, summary, now))
    {
      var before := Snapshot();
      var filed := Move(cat, run, to, actor, code, summary, now);
      if !filed {
        Restore(before);
        return Refused("usage_ingest_conflict");
      }
      out := Ok(run, false);
    }

    /** The tables as an accounting left them, unless it met a conflict. */
    function FilingOf(filed: bool): Filing
      reads this
    {
      if filed then Filed(Snapshot()) else Conflict
    }

    method Move(
      cat: Catalog, run: Id, to: Status, actor: string, code: Option<string>, summary: Option<string>, now: Time)
      returns (filed: bool)
      requires run < |runs| && runs[run].task < |tasks|
      modifies this
      ensures FilingOf(filed) == MoveRun(cfg, cat, old(Snapshot()), run, to, actor, code, summary, now)
    {
      RestateRun(run, to, actor, code, summary, now);
      filed := AccountForRun(cat, run, to, actor, now);
    }

    method RestateRun(
      run: Id, to: Status, actor: string, code: Option<string>, summary: Option<string>, now: Time)
      requires run < |runs| && runs[run].task < |tasks|
      modifies this
      ensures Snapshot() == Restated(old(Snapshot()), run, to, actor, code, summary, now)
    {
      var task, next := runs[run].task, TaskStatusAfter(approvals, run, runs[run], to);
      MoveRow(run, to, code, summary, now);
      SetTaskStatus(task, next);
      AppendAudit(actor, "run." + StatusName(to), RunRow(run));
    }

    method AccountForRun(cat: Catalog, run: Id, to: Status, actor: string, now: Time) returns (filed: bool)
      requires run < |runs| && runs[run].task < |tasks|
      modifies this
      ensures FilingOf(filed) == Accounted(cfg, cat, old(Snapshot()), run, to, actor, now)
    {
      if to in {Completed, Failed, TimedOut} {
        RecordRunOutcome(cat, run, actor, now);
      }
      filed := true;
      if Terminal(to) {
        filed := IngestRunUsage(run, actor, now);
      }
    }

    // ---- Hand-over ----------------------------------------------------------------------------

    method HandoffTask(task: Id, actor: string, key: string, handoff: Handoff, ttlSeconds: int, now: Time)
      returns (out: Outcome)
      modifies this
      ensures Step(Snapshot(), out) ==
              Lifecycle.HandoffTask(old(Snapshot()), task, actor, key, handoff, ttlSeconds, now)
    {
      var existing := Last(comments, CommentKeyed(key));
      if existing.Some? {
        var comment := comments[existing.value];
        if comment.task != task || comment.actor != actor || comment.handoff.handoff != handoff {
          return Refused("idempotency_conflict");
        }
        return Ok(existing.value, true);
      }
      if task >= |tasks| {
        return Refused("not_found");
      }
      var active := Last(runs, RunningOf(task));
      if active.None? {
        return Refused("active_run_not_found");
      }
      var run := active.value;
      if runs[run].worker != actor {
        return Refused("worker_mismatch");
      }
      if handoff.outcome !in {"blocked", "completed"} {
        return Refused("invalid_handoff");
      }
      var before := Snapshot();
      var id := |comments|;
      var stored := StoredHandoff(handoff, run, id);
      comments := comments + [Comment(task, actor, key, stored)];
      SaveRun(run, runs[run].(details := runs[run].details.(handoff := Some(stored))));
      var payload := tasks[task].payload;
      if handoff.outcome == "blocked" {
        SetTaskStatus(task, Blocked);
        AppendAudit(actor, "task.blocked", TaskRow(task));
      } else if payload.independentReview {
        if payload.reviewer == Some(actor) {
          Restore(before);
          return Refused("self_review_denied");
        }
        approvals := approvals + [
          Approval(run, COMPLETION, Undecided, actor, now + Seconds(ttlSeconds), None, None, None)];
        SetTaskStatus(task, AwaitingApproval);
        AppendAudit(actor, "task.completion_requested", TaskRow(task));
      } else {
        SetTaskStatus(task, Completed);
        AppendAudit(actor, "task.completed_handoff", TaskRow(task));
      }
      out := Ok(id, false);
    }

    // ---- Cancellation -------------------------------------------------------------------------

    method RejectPendingApprovals(task: Id, actor: string, key: string, reason: string)
      modifies this
      ensures Snapshot() == RejectPending(old(Snapshot()), |old(approvals)|, task, actor, key, reason)
    {
      for i := 0 to |approvals|
        invariant Snapshot() == RejectPending(old(Snapshot()), i, task, actor, key, reason)
        invariant runs == old(runs) && |approvals| == |old(approvals)|
        invariant forall j :: i <= j < |approvals| ==> approvals[j] == old(approvals)[j]
      {
        var approval := approvals[i];
        if approval.verdict == Undecided && approval.run < |runs| && runs[approval.run].task == task {
          approval := approval.(verdict := Rejected);
          approval := approval.(decidedBy := Some(actor));
          approval := approval.(reason := Some("Tarea cancelada: " + reason));
          approval := approval.(decisionKey := Some(CancelRejection(i, Named(key), task)));
          SaveApproval(i, approval);
          AppendAudit(actor, "approval.rejected", ApprovalRow(i));
        }
      }
    }

    method CancelTask(task: Id, actor: string, key: string, reason: string, now: Time) returns (out: Outcome)
      modifies this
      ensures Step(Snapshot(), out) == Lifecycle.CancelTask(cfg, old(Snapshot()), task, actor, key, reason, now)
    {
      if task >= |tasks| {
        return Refused("not_found");
      }
      if tasks[task].cancelKey.Some? {
        if tasks[task].cancelKey != Some(key) {
          return Refused("already_cancelled");
        }
        RejectPendingApprovals(task, actor, key, reason);
        return Ok(task, true);
      }
      if tasks[task].status == Completed {
        return Refused("invalid_transition");
      }
      if Has(tasks, CancelledWith(key)) {
        return Refused("integrity_error");
      }
      var before := Snapshot();
      var marked := tasks[task].(cancelKey := Some(key));
      marked := marked.(status := Cancelled);
      tasks := tasks[task := marked];
      var active := Last(runs, ActiveOf(task));
      if active.Some? {
        var row := runs[active.value].(status := Cancelled);
        row := row.(errorCode := Some("cancelled"));
        row := row.(summary := Some(reason));
        row := row.(finishedAt := Some(now));
        row := row.(lease := None);
        SaveRun(active.value, row);
        var filed := IngestRunUsage(active.value, actor, now);
        if !filed {
          Restore(before);
          return Refused("usage_ingest_conflict");
        }
      }
      RejectPendingApprovals(task, actor, key, reason);
      AppendAudit(actor, "task.cancelled", TaskRow(task));
      out := Ok(task, false);
    }

    // ---- Approvals ----------------------------------------------------------------------------

    method FailRun(run: Id, code: string, actor: string, now: Time) returns (filed: bool)
      requires run < |runs| && runs[run].task < |tasks|
      modifies this
      ensures filed <==> CloseRun(cfg, old(Snapshot()), run, code, actor, now).Filed?
      ensures filed ==> Snapshot() == CloseRun(cfg, old(Snapshot()), run, code, actor, now).db
    {
      var row := runs[run].(status := Failed);
      row := row.(errorCode := Some(code));
      row := row.(finishedAt := Some(now));
      row := row.(lease := None);
      SaveRun(run, row);
      SetTaskStatus(row.task, Failed);
      filed := IngestRunUsage(run, actor, now);
    }

    method ResolveApproval(run: Id, actor: string, key: string, decision: Verdict, reason: string, now: Time)
      returns (out: Outcome)
      modifies this
      ensures Step(Snapshot(), out) ==
              Lifecycle.ResolveApproval(cfg, old(Snapshot()), run, actor, key, decision, reason, now)
    {
      if run >= |runs| || runs[run].task >= |tasks| {
        return Refused("not_found");
      }
      var newest := Last(approvals, ApprovalOf(run));
      if newest.None? {
        return Refused("approval_not_found");
      }
      var id := newest.value;
      var approval := approvals[id];
      if approval.decisionKey.Some? {
        if && approval.decisionKey == Some(Named(key)) && approval.verdict == decision
           && approval.decidedBy == Some(actor) && approval.reason == Some(reason) {
          return Ok(id, true);
        }
        return Refused("idempotency_conflict");
      }
      var problem := DecisionProblem(Snapshot(), run, actor, now);
      if problem.Some? {
        return Refused(problem.value);
      }
      if approval.expiresAt <= now {
        out := LapseApproval(run, id, now);
        return;
      }
      if Has(approvals, DecidedWith(Named(key))) {
        return Refused("integrity_error");
      }
      out := DecideApproval(run, id, actor, key, decision, reason, now);
    }

    method LapseApproval(run: Id, id: Id, now: Time) returns (out: Outcome)
      requires run < |runs| && runs[run].task < |tasks| && id < |approvals|
      modifies this
      ensures Step(Snapshot(), out) == ExpireApproval(cfg, old(Snapshot()), run, id, now)
    {
      var before := Snapshot();
      SaveApproval(id, approvals[id].(verdict := Expired));
      if approvals[id].action == COMPLETION {
        SetTaskStatus(runs[run].task, Failed);
      } else {
        var filed := FailRun(run, "approval_expired", WATCHDOG, now);
        if !filed {
          Restore(before);
          return Refused("usage_ingest_conflict");
        }
      }
      AppendAudit(WATCHDOG, "approval.expired", ApprovalRow(id));
      out := Refused("approval_expired");
    }

    method DecideApproval(
      run: Id, id: Id, actor: string, key: string, decision: Verdict, reason: string, now: Time)
      returns (out: Outcome)
      requires run < |runs| && runs[run].task < |tasks| && id < |approvals|
      modifies this
      ensures Step(Snapshot(), out) ==
              Decide(cfg, old(Snapshot()), run, id, actor, key, decision, reason, now)
    {
      var before := Snapshot();
      var task := runs[run].task;
      var approval := approvals[id].(verdict := decision);
      approval := approval.(decidedBy := Some(actor));
      approval := approval.(reason := Some(reason));
      approval := approval.(decisionKey := Some(Named(key)));
      SaveApproval(id, approval);
      if approval.action == COMPLETION && decision == Approved {
        SetTaskStatus(task, Completed);
      } else if approval.action == COMPLETION {
        SetTaskStatus(task, Failed);
      } else if decision == Approved {
        var row := runs[run].(status := Dispatching);
        row := row.(nextAttemptAt := now);
        SaveRun(run, row);
        SetTaskStatus(task, Dispatched);
      } else {
        var filed := FailRun(run, "approval_rejected", actor, now);
        if !filed {
          Restore(before);
          return Refused("usage_ingest_conflict");
        }
      }
      AppendAudit(actor, if decision == Approved then "approval.approved" else "approval.rejected", ApprovalRow(id));
      out := Ok(id, false);
    }

    method ResetBreaker(worker: string, profile: string, actor: string) returns (out: Outcome)
      modifies this
      ensures Step(Snapshot(), out) == ResetCircuit(old(Snapshot()), worker, profile, actor)
    {
      var at := (worker, profile);
      if at !in circuits {
        return Refused("not_found");
      }
      var circuit := circuits[at].(open := false);
      circuit := circuit.(failures := 0);
      circuit := circuit.(lastError := None);
      circuit := circuit.(openedAt := None);
      circuit := circuit.(resetAt := None);
      circuits := circuits[at := circuit];
      AppendAudit(actor, "circuit.reset", CircuitRow(worker, profile));
      out := Ok(0, false);
    }

    // ---- Watchdog -----------------------------------------------------------------------------

    method TimeOutRun(cat: Catalog, run: Id, actor: string, now: Time) returns (filed: bool)
      requires run < |runs| && runs[run].task < |tasks|
      modifies this
      ensures filed <==> TimeOut(cfg, cat, old(Snapshot()), run, actor, now).Filed?
      ensures filed ==> Snapshot() == TimeOut(cfg, cat, old(Snapshot()), run, actor, now).db
    {
      var row := runs[run].(status := TimedOut);
      row := row.(errorCode := Some("timeout"));
      row := row.(finishedAt := Some(now));
      row := row.(lease := None);
      SaveRun(run, row);
      SetTaskStatus(row.task, TimedOut);
      AppendAudit(actor, "run.timed_out", RunRow(run));
      RecordRunOutcome(cat, run, actor, now);
      filed := IngestRunUsage(run, actor, now);
    }

    method ExpireDueRuns(cat: Catalog, actor: string, now: Time) returns (out: Outcome, expired: seq<Id>)
      modifies this
      ensures Step(Snapshot(), out) == Lifecycle.ExpireDueRuns(cfg, cat, old(Snapshot()), actor, now)
      ensures out.Ok? ==> expired == OverdueRuns(old(runs), now)
      ensures out.Refused? ==> expired == []
    {
      var before := Snapshot();
      var due := OverdueRuns(runs, now);
      for k := 0 to |due|
        invariant TimeOutEach(cfg, cat, before, due, actor, now)
               == TimeOutEach(cfg, cat, Snapshot(), due[k..], actor, now)
      {
        assert due[k..][1..] == due[k + 1..];
        var run := due[k];
        if run >= |runs| || runs[run].task >= |tasks| {
          Restore(before);
          return Refused("not_found"), [];
        }
        var filed := TimeOutRun(cat, run, actor, now);
        if !filed {
          Restore(before);
          return Refused("usage_ingest_conflict"), [];
        }
      }
      out, expired := Ok(|due|, false), due;
    }
  }

  lemma {:induction false} ClaimQueryInRange(runs: seq<Run>, taken: set<Id>, now: Time, limit: nat)
    ensures forall i :: i in ClaimQuery(runs, taken, now, limit) ==> i < |runs| && i !in taken
    decreases limit
  {
    if limit > 0 && Soonest(runs, |runs|, taken, now).Some? {
      ClaimQueryInRange(runs, taken + {Soonest(runs, |runs|, taken, now).value}, now, limit - 1);
    }
  }

  method UpdateCircuit(before: Circuit, row: Run, limits: ControlLimits, now: Time)
    returns (circuit: Circuit, trips: bool)
    ensures circuit == Tripped(before, row, limits, now)
    ensures trips == (row.status in {Failed, TimedOut} && circuit.failures >= limits.circuitThreshold)
  {
    circuit, trips := before, false;
    if row.status == Completed {
      circuit := FRESH_CIRCUIT;
    } else if row.status == Failed || row.status == TimedOut {
      if circuit.lastError == row.errorCode {
        circuit := circuit.(failures := circuit.failures + 1);
      } else {
        circuit := circuit.(failures := 1);
        circuit := circuit.(lastError := Some(OrElse(row.errorCode, StatusName(row.status))));
      }
      if circuit.failures >= limits.circuitThreshold {
        circuit := circuit.(open := true, openedAt := Some(now));
        circuit := circuit.(resetAt := Some(now + Seconds(limits.circuitCooldownSeconds)));
        trips := true;
      }
    }
  }
}
