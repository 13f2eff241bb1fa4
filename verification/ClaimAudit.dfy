/** The audit trail of claims: a run's dispatch attempts are exactly its `run.claimed` events. */
module ClaimAudit {
  import opened Tables
  import opened Records
  import opened Controls
  import opened Lifecycle
  import opened Invariants
  import opened Preservation
  import opened Histories
  import Admission
  import Approvals
  import Closing
  import opened Identity

  const CLAIMED := "run.claimed"

  function ClaimOf(run: Id): Audit -> bool {
    (a: Audit) => a.event == CLAIMED && a.subject == RunRow(run)
  }

  /** Audit rows were appended, none of them a claim. */
  ghost predicate NoClaims(a: seq<Audit>, b: seq<Audit>) {
    |a| <= |b| && b[..|a|] == a && forall k :: |a| <= k < |b| ==> b[k].event != CLAIMED
  }

  lemma Chain(a: seq<Audit>, b: seq<Audit>, c: seq<Audit>)
    requires NoClaims(a, b) && NoClaims(b, c)
    ensures NoClaims(a, c)
  {
    assert c[..|a|] == c[..|b|][..|a|];
    forall k | |a| <= k < |c| ensures c[k].event != CLAIMED {
      if k < |b| {
        assert c[..|b|][k] == c[k];
      }
    }
  }

  lemma OneMore(a: seq<Audit>, row: Audit)
    requires row.event != CLAIMED
    ensures NoClaims(a, a + [row])
  {
  }

  /** None of the other event names is that of a claim. */
  lemma OtherEvents()
    ensures CLAIMED !in {"run.lease_released", "task.created", "dispatch.control_denied", "budget.soft_exceeded",
                         "task.dispatched", "circuit.opened", "circuit.reset", "usage.ingested", "task.blocked",
                         "task.completion_requested", "task.completed_handoff", "approval.rejected",
                         "approval.approved", "approval.expired", "task.cancelled", "run.timed_out"}
  {
    assert "run.lease_released"[4] != CLAIMED[4] && "run.timed_out"[4] != CLAIMED[4];
    assert "task.created"[0] != CLAIMED[0] && "task.blocked"[0] != CLAIMED[0] && "task.cancelled"[0] != CLAIMED[0];
    assert "usage.ingested"[0] != CLAIMED[0] && "circuit.opened"[0] != CLAIMED[0];
    assert "circuit.reset"[0] != CLAIMED[0];
  }

  lemma StatusIsNoClaim(status: Status)
    ensures "run." + StatusName(status) != CLAIMED
  {
    var event := "run." + StatusName(status);
    assert event[4] == StatusName(status)[0] && event[5] == StatusName(status)[1];
    assert CLAIMED[4] == 'c' && CLAIMED[5] == 'l';
  }

  lemma IngestSilent(cfg: Settings, db: Db, run: Id, actor: string, now: Time)
    requires run < |db.runs| && db.runs[run].task < |db.tasks|
    ensures Ingest(cfg, db, run, actor, now).Filed? ==> NoClaims(db.audit, Ingest(cfg, db, run, actor, now).db.audit)
  {
    OtherEvents();
  }

  lemma OutcomeSilent(cfg: Settings, cat: Catalog, db: Db, run: Id, actor: string, now: Time)
    requires run < |db.runs| && db.runs[run].task < |db.tasks|
    ensures NoClaims(db.audit, RecordOutcome(cfg, cat, db, run, actor, now).audit)
  {
    OtherEvents();
  }

  lemma AccountedSilent(cfg: Settings, cat: Catalog, db: Db, run: Id, to: Status, actor: string, now: Time)
    requires run < |db.runs| && db.runs[run].task < |db.tasks|
    ensures Accounted(cfg, cat, db, run, to, actor, now).Filed? ==>
              NoClaims(db.audit, Accounted(cfg, cat, db, run, to, actor, now).db.audit)
  {
    var judged := if to in {Completed, Failed, TimedOut} then RecordOutcome(cfg, cat, db, run, actor, now) else db;
    OutcomeSilent(cfg, cat, db, run, actor, now);
    RecordOutcomeFrame(cfg, cat, db, run, actor, now);
    IngestSilent(cfg, judged, run, actor, now);
    if Terminal(to) && Ingest(cfg, judged, run, actor, now).Filed? {
      Chain(db.audit, judged.audit, Ingest(cfg, judged, run, actor, now).db.audit);
    }
  }

  lemma RestatedAudit(
    db: Db, run: Id, to: Status, actor: string, code: Option<string>, summary: Option<string>, now: Time, after: Db)
    requires run < |db.runs| && db.runs[run].task < |db.tasks|
    requires after == Restated(db, run, to, actor, code, summary, now)
    ensures NoClaims(db.audit, after.audit) && |after.runs| == |db.runs| && |after.tasks| == |db.tasks|
    ensures after.runs[run].task == db.runs[run].task
  {
    StatusIsNoClaim(to);
    OneMore(db.audit, Audit(actor, "run." + StatusName(to), RunRow(run)));
  }

  lemma MoveSilent(
    cfg: Settings, cat: Catalog, db: Db, run: Id, to: Status, actor: string, code: Option<string>,
    summary: Option<string>, now: Time, step: Step)
    requires step == TransitionRun(cfg, cat, db, run, to, actor, code, summary, now)
    ensures NoClaims(db.audit, step.db.audit)
  {
    if Accepts(db, run, to) {
      var moved := Restated(db, run, to, actor, code, summary, now);
      RestatedAudit(db, run, to, actor, code, summary, now, moved);
      AccountedSilent(cfg, cat, moved, run, to, actor, now);
      var filing := Accounted(cfg, cat, moved, run, to, actor, now);
      if filing.Filed? {
        Chain(db.audit, moved.audit, filing.db.audit);
      }
    } else {
      TransitionElse(cfg, cat, db, run, to, actor, code, summary, now, step);
    }
  }

  lemma {:induction false} RejectSilent(db: Db, n: nat, task: Id, actor: string, key: string, reason: string)
    requires n <= |db.approvals|
    ensures NoClaims(db.audit, RejectPending(db, n, task, actor, key, reason).audit)
  {
    if n > 0 {
      RejectSilent(db, n - 1, task, actor, key, reason);
      OtherEvents();
      var rest := RejectPending(db, n - 1, task, actor, key, reason);
      OneMore(rest.audit, Audit(actor, "approval.rejected", ApprovalRow(n - 1)));
      if PendingOn(db.runs, task, db.approvals[n - 1]) {
        Chain(db.audit, rest.audit, rest.audit + [Audit(actor, "approval.rejected", ApprovalRow(n - 1))]);
      }
    }
  }

  lemma CancelSilent(
    cfg: Settings, db: Db, task: Id, actor: string, key: string, reason: string, now: Time, step: Step)
    requires Core(cfg, db) && step == CancelTask(cfg, db, task, actor, key, reason, now)
    ensures NoClaims(db.audit, step.db.audit)
  {
    RejectSilent(db, |db.approvals|, task, actor, key, reason);
    if Closing.CancelsAfresh(db, task, key) {
      var marked := db.(tasks := db.tasks[task := Closing.CancelledTask(db.tasks[task], key)]);
      var filing := StopActive(cfg, marked, task, actor, reason, now);
      Closing.StopShape(cfg, db, marked, task, actor, key, reason, now, filing);
      MarkedStopSilent(cfg, db, marked, task, actor, reason, now, filing);
      CancelledSilent(filing.db, task, actor, key, reason);
      Chain(db.audit, filing.db.audit, step.db.audit);
    } else {
      Closing.CancelElse(cfg, db, task, actor, key, reason, now, step);
    }
  }

  lemma MarkedStopSilent(
    cfg: Settings, db: Db, marked: Db, task: Id, actor: string, reason: string, now: Time, filing: Filing)
    requires Linked(db) && task < |db.tasks| && |marked.tasks| == |db.tasks| && marked == db.(tasks := marked.tasks)
    requires filing == StopActive(cfg, marked, task, actor, reason, now)
    ensures filing.Filed? ==> NoClaims(db.audit, filing.db.audit)
  {
    match Last(db.runs, ActiveOf(task))
    case None =>
    case Some(run) =>
      IngestSilent(cfg,
        PutRun(marked, run, Finished(db.runs[run], Cancelled, "cancelled", now).(summary := Some(reason))), run, actor,
        now);
  }

  lemma CancelledSilent(db: Db, task: Id, actor: string, key: string, reason: string)
    ensures NoClaims(db.audit,
              Log(RejectPending(db, |db.approvals|, task, actor, key, reason),
                  actor, "task.cancelled", TaskRow(task)).audit)
  {
    RejectSilent(db, |db.approvals|, task, actor, key, reason);
    OtherEvents();
    var rejected := RejectPending(db, |db.approvals|, task, actor, key, reason).audit;
    OneMore(rejected, Audit(actor, "task.cancelled", TaskRow(task)));
    Chain(db.audit, rejected, rejected + [Audit(actor, "task.cancelled", TaskRow(task))]);
  }

  // ---- The other services ---------------------------------------------------------------------

  lemma ColumnsSilent(cfg: Settings, db: Db, cmd: Command, now: Time, step: Step)
    requires (cmd.Beat? || cmd.Drop? || cmd.Note? || cmd.ResetBreaker?) && step == Apply(cfg, db, cmd, now)
    ensures NoClaims(db.audit, step.db.audit)
  {
    OtherEvents();
  }

  lemma CreateSilent(db: Db, actor: string, key: Key, payload: TaskPayload, step: Step)
    requires step == CreateTask(db, actor, key, payload)
    ensures NoClaims(db.audit, step.db.audit)
  {
    OtherEvents();
  }

  lemma LaunchSilent(db: Db, task: Id, actor: string, key: Key, p: DispatchPayload, now: Time)
    requires task < |db.tasks|
    ensures NoClaims(db.audit, Launch(db, task, actor, key, p, now).audit)
  {
    OtherEvents();
  }

  lemma DispatchSilent(
    cfg: Settings, cat: Catalog, db: Db, task: Id, actor: string, key: Key, p: DispatchPayload, now: Time, step: Step)
    requires step == DispatchTask(cfg, cat, db, task, actor, key, p, now)
    ensures NoClaims(db.audit, step.db.audit)
  {
    OtherEvents();
    if Admission.Dispatched(step) {
      Admission.DispatchChecks(cfg, cat, db, task, actor, key, p, now, step);
      var noted := Admission.NotedFor(cfg, cat, db, task, actor, p, now);
      NotedSilent(cfg, cat, db, task, actor, p, now, noted);
      LaunchSilent(noted, task, actor, key, p, now);
      Chain(db.audit, noted.audit, step.db.audit);
    } else {
      RefusalSilent(cfg, cat, db, task, actor, key, p, now, step);
    }
  }

  lemma NotedSilent(
    cfg: Settings, cat: Catalog, db: Db, task: Id, actor: string, p: DispatchPayload, now: Time, noted: Db)
    requires task < |db.tasks| && noted == Admission.NotedFor(cfg, cat, db, task, actor, p, now)
    ensures NoClaims(db.audit, noted.audit) && |noted.tasks| == |db.tasks|
  {
    OtherEvents();
  }

  lemma RefusalSilent(
    cfg: Settings, cat: Catalog, db: Db, task: Id, actor: string, key: Key, p: DispatchPayload, now: Time, step: Step)
    requires step == DispatchTask(cfg, cat, db, task, actor, key, p, now) && !Admission.Dispatched(step)
    ensures NoClaims(db.audit, step.db.audit)
  {
    OtherEvents();
  }

  lemma DeliverSilent(db: Db, task: Id, actor: string, key: string, handoff: Handoff, ttl: int, now: Time, step: Step)
    requires step == HandoffTask(db, task, actor, key, handoff, ttl, now)
    ensures NoClaims(db.audit, step.db.audit)
  {
    OtherEvents();
  }

  lemma CloseSilent(cfg: Settings, db: Db, run: Id, code: string, actor: string, now: Time)
    requires run < |db.runs| && db.runs[run].task < |db.tasks|
    ensures CloseRun(cfg, db, run, code, actor, now).Filed? ==>
              NoClaims(db.audit, CloseRun(cfg, db, run, code, actor, now).db.audit)
  {
    IngestSilent(cfg,
      PutTaskStatus(PutRun(db, run, Finished(db.runs[run], Failed, code, now)), db.runs[run].task, Failed),
      run, actor, now);
  }

  lemma ExpireSilent(cfg: Settings, db: Db, run: Id, approval: Id, now: Time, step: Step)
    requires run < |db.runs| && db.runs[run].task < |db.tasks| && approval < |db.approvals|
    requires step == ExpireApproval(cfg, db, run, approval, now)
    ensures NoClaims(db.audit, step.db.audit)
  {
    OtherEvents();
    var expired := db.(approvals := db.approvals[approval := db.approvals[approval].(verdict := Expired)]);
    CloseSilent(cfg, expired, run, "approval_expired", WATCHDOG, now);
  }

  lemma DecideSilent(
    cfg: Settings, db: Db, run: Id, approval: Id, actor: string, key: string, decision: Verdict, reason: string,
    now: Time, decided: Db, step: Step)
    requires run < |db.runs| && db.runs[run].task < |db.tasks| && approval < |db.approvals|
    requires decided == db.(approvals := db.approvals[approval := db.approvals[approval].(
               verdict := decision, decidedBy := Some(actor), reason := Some(reason), decisionKey := Some(Named(key)))])
    requires step == Decide(cfg, db, run, approval, actor, key, decision, reason, now)
    ensures NoClaims(db.audit, step.db.audit)
  {
    OtherEvents();
    CloseSilent(cfg, decided, run, "approval_rejected", actor, now);
  }

  lemma ResolveSilent(
    cfg: Settings, db: Db, run: Id, actor: string, key: string, decision: Verdict, reason: string, now: Time,
    step: Step)
    requires step == ResolveApproval(cfg, db, run, actor, key, decision, reason, now)
    ensures NoClaims(db.audit, step.db.audit)
  {
    if Approvals.AtDecision(db, run, actor, key, now) {
      var id := Last(db.approvals, ApprovalOf(run)).value;
      Approvals.DecisionBranches(cfg, db, run, actor, key, decision, reason, now, id);
      ExpireSilent(cfg, db, run, id, now, ExpireApproval(cfg, db, run, id, now));
      DecideSilent(cfg, db, run, id, actor, key, decision, reason, now,
        db.(approvals := db.approvals[id := db.approvals[id].(
          verdict := decision, decidedBy := Some(actor), reason := Some(reason), decisionKey := Some(Named(key)))]),
        Decide(cfg, db, run, id, actor, key, decision, reason, now));
    } else {
      Approvals.NotAtDecision(cfg, db, run, actor, key, decision, reason, now);
    }
  }

  lemma TimeOutSilent(cfg: Settings, cat: Catalog, db: Db, run: Id, actor: string, now: Time, filing: Filing)
    requires run < |db.runs| && db.runs[run].task < |db.tasks| && filing == TimeOut(cfg, cat, db, run, actor, now)
    ensures filing.Filed? ==> NoClaims(db.audit, filing.db.audit)
  {
    OtherEvents();
    var stopped := Log(
      PutTaskStatus(PutRun(db, run, Finished(db.runs[run], TimedOut, "timeout", now)), db.runs[run].task, TimedOut),
      actor, "run.timed_out", RunRow(run));
    var judged := RecordOutcome(cfg, cat, stopped, run, actor, now);
    OneMore(db.audit, Audit(actor, "run.timed_out", RunRow(run)));
    OutcomeSilent(cfg, cat, stopped, run, actor, now);
    RecordOutcomeFrame(cfg, cat, stopped, run, actor, now);
    IngestSilent(cfg, judged, run, actor, now);
    Chain(db.audit, stopped.audit, judged.audit);
    if filing.Filed? {
      Chain(db.audit, judged.audit, filing.db.audit);
    }
  }

  lemma {:induction false} SweepSilent(
    cfg: Settings, cat: Catalog, db: Db, ids: seq<Id>, actor: string, now: Time, sweep: Sweep)
    requires sweep == TimeOutEach(cfg, cat, db, ids, actor, now)
    ensures sweep.Swept? ==> NoClaims(db.audit, sweep.db.audit)
    decreases |ids|
  {
    if ids != [] && ids[0] < |db.runs| && db.runs[ids[0]].task < |db.tasks| {
      var filing := TimeOut(cfg, cat, db, ids[0], actor, now);
      TimeOutSilent(cfg, cat, db, ids[0], actor, now, filing);
      if filing.Filed? {
        SweepSilent(cfg, cat, filing.db, ids[1..], actor, now, sweep);
        if sweep.Swept? {
          Chain(db.audit, filing.db.audit, sweep.db.audit);
        }
      }
    }
  }

  lemma RunCallsSilent(cfg: Settings, db: Db, cmd: Command, now: Time, step: Step)
    requires (cmd.Dispatch? || cmd.Move? || cmd.Resolve? || cmd.Sweep?) && step == Apply(cfg, db, cmd, now)
    ensures NoClaims(db.audit, step.db.audit)
  {
    if cmd.Dispatch? {
      DispatchSilent(cfg, cmd.cat, db, cmd.task, cmd.actor, cmd.key, cmd.request, now, step);
    } else if cmd.Move? {
      MoveSilent(cfg, cmd.cat, db, cmd.run, cmd.to, cmd.actor, cmd.code, cmd.summary, now, step);
    } else if cmd.Resolve? {
      ResolveSilent(cfg, db, cmd.run, cmd.actor, cmd.name, cmd.decision, cmd.reason, now, step);
    } else {
      var ids := OverdueRuns(db.runs, now);
      SweepSilent(cfg, cmd.cat, db, ids, cmd.actor, now, TimeOutEach(cfg, cmd.cat, db, ids, cmd.actor, now));
    }
  }

  /** Only claiming writes claim events. */
  lemma OthersSilent(cfg: Settings, db: Db, cmd: Command, now: Time, step: Step)
    requires Core(cfg, db) && !cmd.Claim? && step == Apply(cfg, db, cmd, now)
    ensures NoClaims(db.audit, step.db.audit)
  {
    if cmd.Create? {
      CreateSilent(db, cmd.actor, cmd.key, cmd.payload, step);
    } else if cmd.Deliver? {
      DeliverSilent(db, cmd.task, cmd.actor, cmd.name, cmd.handoff, cmd.ttlSeconds, now, step);
    } else if cmd.Cancel? {
      CancelSilent(cfg, db, cmd.task, cmd.actor, cmd.name, cmd.reason, now, step);
    } else if cmd.Beat? || cmd.Drop? || cmd.Note? || cmd.ResetBreaker? {
      ColumnsSilent(cfg, db, cmd, now, step);
    } else {
      RunCallsSilent(cfg, db, cmd, now, step);
    }
  }

  // ---- Counting -------------------------------------------------------------------------------

  /** Every run has been claimed as often as its claim events say. */
  ghost predicate ClaimsCounted(db: Db) {
    && (forall r :: 0 <= r < |db.runs| ==> Count(db.audit, ClaimOf(r)) == db.runs[r].dispatchAttempts)
    && forall r :: r >= |db.runs| ==> Count(db.audit, ClaimOf(r)) == 0
  }

  lemma {:induction false} SilentCounts(a: seq<Audit>, b: seq<Audit>, run: Id)
    requires NoClaims(a, b)
    ensures Count(b, ClaimOf(run)) == Count(a, ClaimOf(run))
    decreases |b|
  {
    if |b| > |a| {
      var init := b[..|b| - 1];
      assert init[..|a|] == b[..|a|];
      SilentCounts(a, init, run);
    } else {
      assert b == b[..|a|];
    }
  }

  lemma {:induction false} ClaimEachCounts(db: Db, ids: seq<Id>, owner: string, now: Time, expires: Time, run: Id)
    requires forall k :: 0 <= k < |ids| ==> ids[k] < |db.runs|
    requires forall j, k :: 0 <= j < k < |ids| ==> ids[j] != ids[k]
    ensures Count(ClaimEach(db, ids, owner, now, expires).audit, ClaimOf(run)) ==
            Count(db.audit, ClaimOf(run)) + (if run in ids then 1 else 0)
  {
    if ids != [] {
      var init, i := ids[..|ids| - 1], ids[|ids| - 1];
      ClaimEachCounts(db, init, owner, now, expires, run);
      ClaimEachShape(db, init, owner, now, expires);
      var rest := ClaimEach(db, init, owner, now, expires);
      CountAppend(rest.audit, Audit(owner, CLAIMED, RunRow(i)), ClaimOf(run));
      assert ids == init + [i];
    }
  }

  lemma ClaimsAddUp(db: Db, ids: seq<Id>, owner: string, now: Time, expires: Time, after: Db)
    requires ClaimsCounted(db) && after == ClaimEach(db, ids, owner, now, expires)
    requires forall k :: 0 <= k < |ids| ==> ids[k] < |db.runs|
    requires forall j, k :: 0 <= j < k < |ids| ==> ids[j] != ids[k]
    ensures ClaimsCounted(after)
  {
    ClaimEachShape(db, ids, owner, now, expires);
    forall r: Id ensures Count(after.audit, ClaimOf(r)) == Count(db.audit, ClaimOf(r)) + (if r in ids then 1 else 0) {
      ClaimEachCounts(db, ids, owner, now, expires, r);
    }
    RowsAddUp(db, after, ids);
  }

  lemma RowsAddUp(db: Db, after: Db, ids: seq<Id>)
    requires ClaimsCounted(db) && |after.runs| == |db.runs|
    requires forall k :: 0 <= k < |ids| ==> ids[k] < |db.runs|
    requires forall i :: 0 <= i < |db.runs| ==>
               after.runs[i].dispatchAttempts == db.runs[i].dispatchAttempts + (if i in ids then 1 else 0)
    requires forall r: Id ::
               Count(after.audit, ClaimOf(r)) == Count(db.audit, ClaimOf(r)) + (if r in ids then 1 else 0)
    ensures ClaimsCounted(after)
  {
  }

  lemma ClaimCounts(
    db: Db, owner: string, duration: Time, limit: int, locked: set<Id>, now: Time, step: Step)
    requires ClaimsCounted(db) && step == ClaimRuns(db, owner, duration, limit, locked, now)
    ensures ClaimsCounted(step.db)
  {
    if step.out.Ok? {
      var ids := ClaimQuery(db.runs, locked, now, limit);
      ClaimQueryDistinct(db.runs, locked, now, limit, ids);
      ClaimsAddUp(db, ids, owner, now, now + duration, step.db);
    }
  }

  lemma SilentStepCounts(db: Db, after: Db)
    requires ClaimsCounted(db) && NoClaims(db.audit, after.audit) && SameAttempts(db, after)
    ensures ClaimsCounted(after)
  {
    forall r: Id ensures Count(after.audit, ClaimOf(r)) == Count(db.audit, ClaimOf(r)) {
      SilentCounts(db.audit, after.audit, r);
    }
  }

  /** Over any history a run's dispatch attempts equal the number of its claim events in the audit trail. */
  lemma {:induction false} AttemptsEqualClaims(cfg: Settings, history: seq<Event>)
    requires Guarded(cfg, history)
    ensures ClaimsCounted(Replay(cfg, history))
  {
    if history != [] {
      var init, last := history[..|history| - 1], history[|history| - 1];
      AttemptsEqualClaims(cfg, init);
      EveryHistoryIsSafe(cfg, init);
      CountedStep(cfg, Replay(cfg, init), last.cmd, last.now, Apply(cfg, Replay(cfg, init), last.cmd, last.now));
    }
  }

  lemma CountedStep(cfg: Settings, db: Db, cmd: Command, now: Time, step: Step)
    requires Inv(cfg, db) && ClaimsCounted(db) && step == Apply(cfg, db, cmd, now)
    ensures ClaimsCounted(step.db)
  {
    if cmd.Claim? {
      ClaimCounts(db, cmd.owner, cmd.duration, cmd.limit, cmd.locked, now, step);
    } else {
      ApplyExtends(cfg, db, cmd, now, step);
      OthersSilent(cfg, db, cmd, now, step);
      SilentStepCounts(db, step.db);
    }
  }
}
