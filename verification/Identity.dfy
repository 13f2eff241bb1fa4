/** Row identity: which services append rows, and that none rewrites a task's request or a run's origin. */
module Identity {
  import opened Tables
  import opened Records
  import opened Controls
  import opened Lifecycle
  import opened Invariants
  import opened Preservation
  import opened Admission
  import opened Closing
  import opened Approvals
  import opened Histories

  /** No row was appended to the task and run tables, and every row kept its identity. */
  ghost predicate KeepsRows(db: Db, after: Db) {
    && SameTasks(db.tasks, after.tasks) && |after.runs| == |db.runs|
    && forall i :: 0 <= i < |db.runs| ==> SameRun(db.runs[i], after.runs[i])
  }

  /** No service but the dispatcher's own reports says which remote run serves a run. */
  ghost predicate SameRemotes(db: Db, after: Db) {
    && |db.runs| <= |after.runs|
    && (forall i :: 0 <= i < |db.runs| ==> after.runs[i].workerRunId == db.runs[i].workerRunId)
    && (forall i :: |db.runs| <= i < |after.runs| ==> after.runs[i].workerRunId.None?)
  }

  ghost predicate SameAttempts(db: Db, after: Db) {
    && |db.runs| <= |after.runs|
    && (forall i :: 0 <= i < |db.runs| ==> after.runs[i].dispatchAttempts == db.runs[i].dispatchAttempts)
    && (forall i :: |db.runs| <= i < |after.runs| ==> after.runs[i].dispatchAttempts == 0)
  }

  /** Nor was any run claimed. */
  ghost predicate Unclaimed(db: Db, after: Db) {
    SameRemotes(db, after) && SameAttempts(db, after)
  }

  lemma RewrittenCarries(db: Db, after: Db, run: Id, row: Run)
    requires Rewritten(db, after, run, row) && row.workerRunId == db.runs[run].workerRunId
    requires row.dispatchAttempts == db.runs[run].dispatchAttempts
    ensures KeepsRows(db, after) && Unclaimed(db, after)
  {
  }

  lemma MoveCarries(
    cfg: Settings, cat: Catalog, db: Db, run: Id, to: Status, actor: string, code: Option<string>,
    summary: Option<string>, now: Time, step: Step)
    requires Core(cfg, db) && step == TransitionRun(cfg, cat, db, run, to, actor, code, summary, now)
    ensures KeepsRows(db, step.db) && Unclaimed(db, step.db)
  {
    if Accepts(db, run, to) {
      var row := TransitionHasEffect(cfg, cat, db, run, to, actor, code, summary, now, step);
      RewrittenCarries(db, step.db, run, row);
    } else {
      TransitionElse(cfg, cat, db, run, to, actor, code, summary, now, step);
    }
  }

  lemma DeliverCarries(
    db: Db, task: Id, actor: string, key: string, handoff: Handoff, ttl: int, now: Time, step: Step)
    requires Linked(db) && step == HandoffTask(db, task, actor, key, handoff, ttl, now)
    ensures KeepsRows(db, step.db) && Unclaimed(db, step.db)
  {
    HandoffElse(db, task, actor, key, handoff, ttl, now, step);
    if step.out.Ok? && !step.out.replayed {
      var run := Last(db.runs, RunningOf(task)).value;
      HandoffShape(db, task, actor, key, handoff, ttl, now, step, run,
        db.runs[run].(details := db.runs[run].details.(handoff := Some(StoredHandoff(handoff, run, |db.comments|)))));
    }
  }

  lemma CancelCarries(
    cfg: Settings, db: Db, task: Id, actor: string, key: string, reason: string, now: Time, step: Step)
    requires Inv(cfg, db) && step == CancelTask(cfg, db, task, actor, key, reason, now)
    ensures KeepsRows(db, step.db) && Unclaimed(db, step.db)
  {
    hide Core, CancelTask, AllSealed, CancelEffect;
    if CancelsAfresh(db, task, key) {
      CancelShape(cfg, db, task, actor, key, reason, now, step);
      EffectCarries(db, step.db, task, actor, key, reason, now);
    } else {
      CancelElse(cfg, db, task, actor, key, reason, now, step);
      RejectPendingShape(db, |db.approvals|, task, actor, key, reason);
    }
  }

  lemma EffectCarries(db: Db, after: Db, task: Id, actor: string, key: string, reason: string, now: Time)
    requires CancelEffect(db, after, task, actor, key, reason, now)
    ensures KeepsRows(db, after) && Unclaimed(db, after)
  {
    var active := Last(db.runs, ActiveOf(task));
    if active.Some? {
      RewrittenCarries(db, after, active.value, Stopped(db.runs[active.value], reason, now));
    }
  }

  lemma CloseCarries(cfg: Settings, db: Db, run: Id, code: string, actor: string, now: Time)
    requires run < |db.runs| && db.runs[run].task < |db.tasks|
    ensures CloseRun(cfg, db, run, code, actor, now).Filed? ==>
              var after := CloseRun(cfg, db, run, code, actor, now).db;
              KeepsRows(db, after) && Unclaimed(db, after)
  {
  }

  lemma ExpireCarries(cfg: Settings, db: Db, run: Id, approval: Id, now: Time)
    requires run < |db.runs| && db.runs[run].task < |db.tasks| && approval < |db.approvals|
    ensures var after := ExpireApproval(cfg, db, run, approval, now).db;
            KeepsRows(db, after) && Unclaimed(db, after)
  {
    var expired := db.(approvals := db.approvals[approval := db.approvals[approval].(verdict := Expired)]);
    CloseCarries(cfg, expired, run, "approval_expired", WATCHDOG, now);
  }

  lemma DecideCarries(
    cfg: Settings, db: Db, run: Id, approval: Id, actor: string, key: string, decision: Verdict, reason: string,
    now: Time, decided: Db)
    requires run < |db.runs| && db.runs[run].task < |db.tasks| && approval < |db.approvals|
    requires decided == db.(approvals := db.approvals[approval := db.approvals[approval].(
               verdict := decision, decidedBy := Some(actor), reason := Some(reason), decisionKey := Some(Named(key)))])
    ensures var after := Decide(cfg, db, run, approval, actor, key, decision, reason, now).db;
            KeepsRows(db, after) && Unclaimed(db, after)
  {
    hide CloseRun;
    CloseCarries(cfg, decided, run, "approval_rejected", actor, now);
  }

  lemma ResolveCarries(
    cfg: Settings, db: Db, run: Id, actor: string, key: string, decision: Verdict, reason: string, now: Time, after: Db)
    requires Linked(db) && after == ResolveApproval(cfg, db, run, actor, key, decision, reason, now).db
    ensures KeepsRows(db, after) && Unclaimed(db, after)
  {
    if AtDecision(db, run, actor, key, now) {
      var id := Last(db.approvals, ApprovalOf(run)).value;
      DecisionBranches(cfg, db, run, actor, key, decision, reason, now, id);
      ExpireCarries(cfg, db, run, id, now);
      DecideCarries(cfg, db, run, id, actor, key, decision, reason, now,
        db.(approvals := db.approvals[id := db.approvals[id].(
          verdict := decision, decidedBy := Some(actor), reason := Some(reason), decisionKey := Some(Named(key)))]));
    } else {
      NotAtDecision(cfg, db, run, actor, key, decision, reason, now);
    }
  }

  lemma SweepCarries(cfg: Settings, cat: Catalog, db: Db, actor: string, now: Time, step: Step)
    requires Inv(cfg, db) && step == ExpireDueRuns(cfg, cat, db, actor, now)
    ensures KeepsRows(db, step.db) && Unclaimed(db, step.db)
  {
    SweepKeepsInv(cfg, cat, db, actor, now, step);
    SweptCarries(db, step.db, now);
  }

  lemma SweptCarries(db: Db, after: Db, now: Time)
    requires |after.runs| == |db.runs| && SameTasks(db.tasks, after.tasks)
    requires forall i :: 0 <= i < |db.runs| ==>
               after.runs[i] ==
               if Overdue(db.runs[i], now) then Finished(db.runs[i], TimedOut, "timeout", now) else db.runs[i]
    ensures KeepsRows(db, after) && Unclaimed(db, after)
  {
  }

  /** A dispatcher's report about a run; it may name the remote run or leave it as it was. */
  predicate NamesRemote(db: Db, cmd: Command) {
    cmd.Note? && cmd.run < |db.runs| && cmd.report.workerRunId != db.runs[cmd.run].workerRunId
  }

  lemma ClaimCarries(
    db: Db, owner: string, duration: Time, limit: int, locked: set<Id>, now: Time, step: Step)
    requires step == ClaimRuns(db, owner, duration, limit, locked, now)
    ensures KeepsRows(db, step.db) && SameRemotes(db, step.db)
  {
    if step.db != db {
      ClaimedCarries(db, ClaimQuery(db.runs, locked, now, limit), locked, now, limit, owner, now + duration, step.db);
    }
  }

  lemma ClaimedCarries(
    db: Db, ids: seq<Id>, locked: set<Id>, now: Time, limit: nat, owner: string, expires: Time, after: Db)
    requires ids == ClaimQuery(db.runs, locked, now, limit) && after == ClaimEach(db, ids, owner, now, expires)
    ensures KeepsRows(db, after) && SameRemotes(db, after)
  {
    ClaimQueryDistinct(db.runs, locked, now, limit, ids);
    ClaimEachShape(db, ids, owner, now, expires);
  }

  lemma NoteCarries(db: Db, run: Id, report: Report, step: Step)
    requires step == Observe(db, run, report)
    ensures KeepsRows(db, step.db) && SameAttempts(db, step.db)
    ensures run < |db.runs| && report.workerRunId == db.runs[run].workerRunId ==> SameRemotes(db, step.db)
    ensures run >= |db.runs| ==> step.db == db
  {
  }

  lemma BeatCarries(db: Db, run: Id, owner: string, duration: Time, now: Time, step: Step)
    requires step == Heartbeat(db, run, owner, duration, now)
    ensures KeepsRows(db, step.db) && Unclaimed(db, step.db)
  {
  }

  lemma DropCarries(db: Db, run: Id, owner: string, next: Time, now: Time, step: Step)
    requires step == Release(db, run, owner, next, now)
    ensures KeepsRows(db, step.db) && Unclaimed(db, step.db)
  {
  }

  lemma ColumnsCarry(cfg: Settings, db: Db, cmd: Command, now: Time, step: Step)
    requires EditsColumns(cmd) && step == Apply(cfg, db, cmd, now)
    ensures KeepsRows(db, step.db) && (!NamesRemote(db, cmd) ==> SameRemotes(db, step.db))
    ensures !cmd.Claim? ==> SameAttempts(db, step.db)
  {
    hide ClaimRuns, Heartbeat, Release, Observe;
    match cmd
    case Claim(owner, duration, limit, locked) => ClaimCarries(db, owner, duration, limit, locked, now, step);
    case Beat(run, owner, duration) => BeatCarries(db, run, owner, duration, now, step);
    case Drop(run, owner, next) => DropCarries(db, run, owner, next, now, step);
    case Note(run, report) => NoteCarries(db, run, report, step);
    case _ =>
  }

  /** Only creation and dispatch append task or run rows. */
  lemma OthersCarry(cfg: Settings, db: Db, cmd: Command, now: Time, step: Step)
    requires Inv(cfg, db) && !cmd.Create? && !cmd.Dispatch? && step == Apply(cfg, db, cmd, now)
    ensures KeepsRows(db, step.db) && (!NamesRemote(db, cmd) ==> SameRemotes(db, step.db))
    ensures !cmd.Claim? ==> SameAttempts(db, step.db)
  {
    if EditsColumns(cmd) {
      ColumnsCarry(cfg, db, cmd, now, step);
    } else if cmd.Move? {
      MoveCarries(cfg, cmd.cat, db, cmd.run, cmd.to, cmd.actor, cmd.code, cmd.summary, now, step);
    } else if cmd.Deliver? {
      DeliverCarries(db, cmd.task, cmd.actor, cmd.name, cmd.handoff, cmd.ttlSeconds, now, step);
    } else if cmd.Cancel? {
      CancelCarries(cfg, db, cmd.task, cmd.actor, cmd.name, cmd.reason, now, step);
    } else if cmd.Resolve? {
      ResolveCarries(cfg, db, cmd.run, cmd.actor, cmd.name, cmd.decision, cmd.reason, now, step.db);
    } else {
      SweepCarries(cfg, cmd.cat, db, cmd.actor, now, step);
    }
  }

  /** Appending a row is all a dispatch can do to the run table. */
  lemma DispatchAppends(
    cfg: Settings, cat: Catalog, db: Db, task: Id, actor: string, key: Key, p: DispatchPayload, now: Time, step: Step)
    requires step == DispatchTask(cfg, cat, db, task, actor, key, p, now)
    ensures SameTasks(db.tasks, step.db.tasks)
    ensures Admission.Dispatched(step) ==>
              && |step.db.runs| == |db.runs| + 1 && step.db.runs == db.runs + [step.db.runs[|db.runs|]]
              && step.db.runs[|db.runs|].task == task < |db.tasks| && step.db.runs[|db.runs|].key == key
              && Count(db.runs, OfTask(task)) <= cfg.maxRetries && Last(db.runs, RunKeyed(key)).None?
              && step.db.runs[|db.runs|].workerRunId.None? && step.db.runs[|db.runs|].dispatchAttempts == 0
    ensures !Admission.Dispatched(step) ==> step.db.runs == db.runs
    ensures step.out.Ok? && step.out.replayed ==> Last(db.runs, RunKeyed(key)).Some?
  {
    if Admission.Dispatched(step) {
      DispatchShape(cfg, cat, db, task, actor, key, p, now, step);
    } else {
      DispatchElse(cfg, cat, db, task, actor, key, p, now, step);
    }
  }

  ghost predicate Extends(a: Db, b: Db) {
    && |a.tasks| <= |b.tasks| && |a.runs| <= |b.runs|
    && (forall t :: 0 <= t < |a.tasks| ==>
          && a.tasks[t].payload == b.tasks[t].payload && a.tasks[t].key == b.tasks[t].key
          && a.tasks[t].requester == b.tasks[t].requester)
    && (forall r :: 0 <= r < |a.runs| ==> SameRun(a.runs[r], b.runs[r]))
  }

  lemma CreateExtends(db: Db, actor: string, key: Key, payload: TaskPayload, step: Step)
    requires step == CreateTask(db, actor, key, payload)
    ensures Extends(db, step.db) && SameRemotes(db, step.db) && SameAttempts(db, step.db)
  {
    CreateAppends(db, actor, key, payload, step);
  }

  lemma DispatchExtends(
    cfg: Settings, cat: Catalog, db: Db, task: Id, actor: string, key: Key, p: DispatchPayload, now: Time, step: Step)
    requires step == DispatchTask(cfg, cat, db, task, actor, key, p, now)
    ensures Extends(db, step.db) && SameRemotes(db, step.db) && SameAttempts(db, step.db)
  {
    DispatchAppends(cfg, cat, db, task, actor, key, p, now, step);
  }

  /** Whatever the call, rows are only appended and keep their identity, their key and their remote run. */
  lemma ApplyExtends(cfg: Settings, db: Db, cmd: Command, now: Time, step: Step)
    requires Inv(cfg, db) && step == Apply(cfg, db, cmd, now)
    ensures Extends(db, step.db) && (!NamesRemote(db, cmd) ==> SameRemotes(db, step.db))
    ensures !cmd.Claim? ==> SameAttempts(db, step.db)
  {
    if cmd.Create? {
      CreateExtends(db, cmd.actor, cmd.key, cmd.payload, step);
    } else if cmd.Dispatch? {
      DispatchExtends(cfg, cmd.cat, db, cmd.task, cmd.actor, cmd.key, cmd.request, now, step);
    } else {
      OthersCarry(cfg, db, cmd, now, step);
    }
  }
}
