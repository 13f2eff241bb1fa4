/** Endings are final: the ledger only grows, so a run that has ended keeps the status it ended with. */
module Endings {
  import opened Tables
  import opened Records
  import opened Controls
  import opened Lifecycle
  import opened Invariants
  import opened Preservation
  import opened Admission
  import opened Closing
  import opened Approvals
  import opened Histories
  import opened Identity

  ghost predicate LedgerGrows(a: Db, b: Db) {
    a.ledger <= b.ledger
  }

  lemma EffectGrows(db: Db, after: Db, run: Id, row: Run)
    requires Edited(db, after, run, row) || Ended(db, after, run, row)
    ensures LedgerGrows(db, after)
  {
  }

  lemma MoveGrows(
    cfg: Settings, cat: Catalog, db: Db, run: Id, to: Status, actor: string, code: Option<string>,
    summary: Option<string>, now: Time, step: Step)
    requires Core(cfg, db) && step == TransitionRun(cfg, cat, db, run, to, actor, code, summary, now)
    ensures LedgerGrows(db, step.db)
  {
    hide TransitionRun;
    if Accepts(db, run, to) {
      var row := TransitionHasEffect(cfg, cat, db, run, to, actor, code, summary, now, step);
      EffectGrows(db, step.db, run, row);
    } else {
      TransitionElse(cfg, cat, db, run, to, actor, code, summary, now, step);
    }
  }

  lemma CancelGrows(
    cfg: Settings, db: Db, task: Id, actor: string, key: string, reason: string, now: Time, step: Step)
    requires Core(cfg, db) && step == CancelTask(cfg, db, task, actor, key, reason, now)
    ensures LedgerGrows(db, step.db)
  {
    hide CancelTask;
    if CancelsAfresh(db, task, key) {
      CancelShape(cfg, db, task, actor, key, reason, now, step);
    } else {
      CancelElse(cfg, db, task, actor, key, reason, now, step);
      RejectPendingShape(db, |db.approvals|, task, actor, key, reason);
    }
  }

  lemma FilingGrows(cfg: Settings, db: Db, run: Id, actor: string, now: Time)
    requires run < |db.runs| && db.runs[run].task < |db.tasks|
    ensures Ingest(cfg, db, run, actor, now).Filed? ==> LedgerGrows(db, Ingest(cfg, db, run, actor, now).db)
  {
  }

  lemma CloseGrows(cfg: Settings, db: Db, run: Id, code: string, actor: string, now: Time)
    requires run < |db.runs| && db.runs[run].task < |db.tasks|
    ensures CloseRun(cfg, db, run, code, actor, now).Filed? ==>
              LedgerGrows(db, CloseRun(cfg, db, run, code, actor, now).db)
  {
    FilingGrows(cfg,
      PutTaskStatus(PutRun(db, run, Finished(db.runs[run], Failed, code, now)), db.runs[run].task, Failed),
      run, actor, now);
  }

  lemma ResolveGrows(
    cfg: Settings, db: Db, run: Id, actor: string, key: string, decision: Verdict, reason: string, now: Time, after: Db)
    requires Linked(db) && after == ResolveApproval(cfg, db, run, actor, key, decision, reason, now).db
    ensures LedgerGrows(db, after)
  {
    hide Linked, ResolveApproval, CloseRun;
    if AtDecision(db, run, actor, key, now) {
      var id := Last(db.approvals, ApprovalOf(run)).value;
      DecisionBranches(cfg, db, run, actor, key, decision, reason, now, id);
      ExpiryGrows(cfg, db, run, id, now);
      DecisionGrows(cfg, db, run, id, actor, key, decision, reason, now);
    } else {
      NotAtDecision(cfg, db, run, actor, key, decision, reason, now);
    }
  }

  lemma ExpiryGrows(cfg: Settings, db: Db, run: Id, approval: Id, now: Time)
    requires run < |db.runs| && db.runs[run].task < |db.tasks| && approval < |db.approvals|
    ensures LedgerGrows(db, ExpireApproval(cfg, db, run, approval, now).db)
  {
    hide CloseRun;
    CloseGrows(cfg, db.(approvals := db.approvals[approval := db.approvals[approval].(verdict := Expired)]),
      run, "approval_expired", WATCHDOG, now);
  }

  lemma DecisionGrows(
    cfg: Settings, db: Db, run: Id, approval: Id, actor: string, key: string, decision: Verdict, reason: string,
    now: Time)
    requires run < |db.runs| && db.runs[run].task < |db.tasks| && approval < |db.approvals|
    ensures LedgerGrows(db, Decide(cfg, db, run, approval, actor, key, decision, reason, now).db)
  {
    hide CloseRun;
    var row := db.approvals[approval].(
      verdict := decision, decidedBy := Some(actor), reason := Some(reason), decisionKey := Some(Named(key)));
    CloseGrows(cfg, db.(approvals := db.approvals[approval := row]), run, "approval_rejected", actor, now);
  }

  lemma TimeOutGrows(cfg: Settings, cat: Catalog, db: Db, run: Id, actor: string, now: Time)
    requires run < |db.runs| && db.runs[run].task < |db.tasks|
    ensures TimeOut(cfg, cat, db, run, actor, now).Filed? ==> LedgerGrows(db, TimeOut(cfg, cat, db, run, actor, now).db)
  {
  }

  lemma {:induction false} SweepGrows(cfg: Settings, cat: Catalog, db: Db, ids: seq<Id>, actor: string, now: Time)
    ensures TimeOutEach(cfg, cat, db, ids, actor, now).Swept? ==>
              LedgerGrows(db, TimeOutEach(cfg, cat, db, ids, actor, now).db)
    decreases |ids|
  {
    hide TimeOut;
    if ids != [] && ids[0] < |db.runs| && db.runs[ids[0]].task < |db.tasks| {
      TimeOutGrows(cfg, cat, db, ids[0], actor, now);
      var filing := TimeOut(cfg, cat, db, ids[0], actor, now);
      if filing.Filed? {
        SweepGrows(cfg, cat, filing.db, ids[1..], actor, now);
      }
    }
  }

  lemma DeliverGrows(db: Db, task: Id, actor: string, key: string, handoff: Handoff, ttl: int, now: Time, step: Step)
    requires step == HandoffTask(db, task, actor, key, handoff, ttl, now)
    ensures LedgerGrows(db, step.db)
  {
  }

  lemma {:induction false} ClaimGrows(db: Db, ids: seq<Id>, owner: string, now: Time, expires: Time)
    ensures ClaimEach(db, ids, owner, now, expires).ledger == db.ledger
  {
    if ids != [] {
      ClaimGrows(db, ids[..|ids| - 1], owner, now, expires);
    }
  }

  lemma DispatchGrows(
    cfg: Settings, cat: Catalog, db: Db, task: Id, actor: string, key: Key, p: DispatchPayload, now: Time, step: Step)
    requires step == DispatchTask(cfg, cat, db, task, actor, key, p, now)
    ensures LedgerGrows(db, step.db)
  {
    hide DispatchTask;
    if Admission.Dispatched(step) {
      DispatchShape(cfg, cat, db, task, actor, key, p, now, step);
    } else {
      DispatchElse(cfg, cat, db, task, actor, key, p, now, step);
    }
  }

  /** No service rewrites or removes an entry of the ledger. */
  lemma LedgerIsAppendOnly(cfg: Settings, db: Db, cmd: Command, now: Time, after: Db)
    requires Inv(cfg, db) && after == Apply(cfg, db, cmd, now).db
    ensures LedgerGrows(db, after)
  {
    hide AllSealed, Booked, WithinCaps, OneActive, Numbered, Keyed;
    hide TransitionRun, CancelTask, ResolveApproval, TimeOutEach, HandoffTask, DispatchTask, ClaimEach;
    match cmd
    case Claim(owner, duration, limit, locked) =>
      ClaimGrows(db, ClaimQuery(db.runs, locked, now, Max(limit, 0)), owner, now, now + duration);
    case Dispatch(cat, task, actor, key, p) =>
      DispatchGrows(cfg, cat, db, task, actor, key, p, now, Apply(cfg, db, cmd, now));
    case Move(cat, run, to, actor, code, summary) =>
      MoveGrows(cfg, cat, db, run, to, actor, code, summary, now, Apply(cfg, db, cmd, now));
    case Deliver(task, actor, key, handoff, ttl) =>
      DeliverGrows(db, task, actor, key, handoff, ttl, now, Apply(cfg, db, cmd, now));
    case Cancel(task, actor, key, reason) =>
      CancelGrows(cfg, db, task, actor, key, reason, now, Apply(cfg, db, cmd, now));
    case Resolve(run, actor, key, decision, reason) =>
      ResolveGrows(cfg, db, run, actor, key, decision, reason, now, after);
    case Sweep(cat, actor) => SweepGrows(cfg, cat, db, OverdueRuns(db.runs, now), actor, now);
    case _ =>
  }

  /** So under the invariant an ended run still has the status that was booked for it. */
  lemma BookedStatusStays(a: Db, b: Db, run: Id)
    requires Booked(a.runs, a.ledger) && Booked(b.runs, b.ledger) && LedgerGrows(a, b)
    requires run < |a.runs| && Terminal(a.runs[run].status) && run < |b.runs|
    ensures b.runs[run].status == a.runs[run].status
  {
    CountZero(a.ledger, ForRun(run));
    var e :| 0 <= e < |a.ledger| && ForRun(run)(a.ledger[e]);
    assert b.ledger[e] == a.ledger[e];
  }

  lemma EndingStep(cfg: Settings, db: Db, cmd: Command, now: Time, after: Db, run: Id)
    requires Inv(cfg, db) && after == Apply(cfg, db, cmd, now).db && Inv(cfg, after)
    requires run < |db.runs| && Terminal(db.runs[run].status)
    ensures run < |after.runs| && after.runs[run].status == db.runs[run].status
  {
    hide Apply;
    LedgerIsAppendOnly(cfg, db, cmd, now, after);
    ApplyExtends(cfg, db, cmd, now, Apply(cfg, db, cmd, now));
    BookedStatusStays(db, after, run);
  }

  /** Whatever follows in a guarded history, a run that has ended keeps its status and its entry in the ledger. */
  lemma {:induction false} EndingsAreFinal(cfg: Settings, past: seq<Event>, future: seq<Event>, run: Id)
    requires Guarded(cfg, past) && Guarded(cfg, past + future)
    requires run < |Replay(cfg, past).runs| && Terminal(Replay(cfg, past).runs[run].status)
    ensures LedgerGrows(Replay(cfg, past), Replay(cfg, past + future))
    ensures run < |Replay(cfg, past + future).runs|
    ensures Replay(cfg, past + future).runs[run].status == Replay(cfg, past).runs[run].status
  {
    hide Inv, Apply;
    if future == [] {
      assert past + future == past;
    } else {
      var init, last := future[..|future| - 1], future[|future| - 1];
      ReplaySplit(cfg, past, future);
      EndingsAreFinal(cfg, past, init, run);
      EveryHistoryIsSafe(cfg, past + init);
      EveryHistoryIsSafe(cfg, past + future);
      var before, after := Replay(cfg, past + init), Replay(cfg, past + future);
      LedgerIsAppendOnly(cfg, before, last.cmd, last.now, after);
      EndingStep(cfg, before, last.cmd, last.now, after, run);
    }
  }
}
