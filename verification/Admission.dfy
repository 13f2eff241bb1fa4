/** Creating tasks and dispatching runs keep the invariant, whatever the budget tables hold. */
module Admission {
  import opened Tables
  import opened Records
  import opened Controls
  import opened Lifecycle
  import opened Invariants
  import opened Preservation

  ghost predicate TaskAdded(db: Db, after: Db, row: Task) {
    && after.tasks == db.tasks + [row] && after.runs == db.runs && after.approvals == db.approvals
    && after.ledger == db.ledger
  }

  lemma TaskAddedKeepsInv(cfg: Settings, db: Db, after: Db, row: Task)
    requires Inv(cfg, db) && TaskAdded(db, after, row)
    requires row.cancelKey.None? && Last(db.tasks, TaskKeyed(row.key)).None?
    requires LinksBack(after.tasks, |db.tasks|)
    ensures Inv(cfg, after) && LeavesCancelled(db, after)
  {
    TaskAddedLinks(db, after, row);
    forall p: Id ensures Count(after.runs, ActiveChildOf(after.tasks, p)) <= Max(1, cfg.maxFanOut) {
      CountSame(db.runs, db.runs, ActiveChildOf(db.tasks, p), ActiveChildOf(after.tasks, p));
    }
    SealsKept(db, after);
  }

  lemma TaskAddedLinks(db: Db, after: Db, row: Task)
    requires Linked(db) && Keyed(db) && TaskAdded(db, after, row)
    requires row.cancelKey.None? && Last(db.tasks, TaskKeyed(row.key)).None?
    requires LinksBack(after.tasks, |db.tasks|)
    ensures Linked(after) && Keyed(after) && LeavesCancelled(db, after)
  {
    forall t | 0 <= t < |db.tasks| ensures LinksBack(after.tasks, t) && after.tasks[t].key != row.key {
      assert LinksBack(db.tasks, t);
      assert !TaskKeyed(row.key)(db.tasks[t]);
    }
  }

  /** Appending a row is all a creation can do to the task table. */
  lemma CreateAppends(db: Db, actor: string, key: Key, payload: TaskPayload, step: Step)
    requires step == CreateTask(db, actor, key, payload)
    ensures step.out.Ok? && !step.out.replayed ==>
              && TaskAdded(db, step.db, Task(actor, key, payload, Pending, None)) && step.out.id == |db.tasks|
              && Last(db.tasks, TaskKeyed(key)).None? && LinksBack(step.db.tasks, |db.tasks|)
    ensures step.out.Ok? && step.out.replayed ==> Last(db.tasks, TaskKeyed(key)) == Some(step.out.id)
    ensures !(step.out.Ok? && !step.out.replayed) ==> step.db == db
  {
  }

  lemma CreateFinds(db: Db, actor: string, key: Key, payload: TaskPayload, step: Step)
    requires step == CreateTask(db, actor, key, payload)
    ensures step.out.Ok? ==> Last(step.db.tasks, TaskKeyed(key)) == Some(step.out.id)
  {
  }

  lemma CreateKeepsInv(cfg: Settings, db: Db, actor: string, key: Key, payload: TaskPayload, step: Step)
    requires Inv(cfg, db) && step == CreateTask(db, actor, key, payload)
    ensures Inv(cfg, step.db) && LeavesCancelled(db, step.db)
  {
    CreateAppends(db, actor, key, payload, step);
    if step.out.Ok? && !step.out.replayed {
      TaskAddedKeepsInv(cfg, db, step.db, Task(actor, key, payload, Pending, None));
    } else {
      QuietKeepsInv(cfg, db, db);
    }
  }

  // ---- Dispatch -------------------------------------------------------------------------------

  lemma {:induction false} LastAttemptCounts(runs: seq<Run>, task: Id)
    requires Numbered(runs)
    ensures LastAttempt(runs, task) == Count(runs, OfTask(task))
  {
    if runs != [] {
      var init := runs[..|runs| - 1];
      assert runs[..|runs|] == runs;
      forall k | 0 <= k < |init| ensures init[k].attempt == Count(init[..k + 1], OfTask(init[k].task)) {
        assert init[..k + 1] == runs[..k + 1];
      }
      LastAttemptCounts(init, task);
    }
  }

  ghost predicate RunAdded(db: Db, after: Db, row: Run) {
    && after.runs == db.runs + [row] && after.ledger == db.ledger
    && SameTasks(db.tasks, after.tasks)
    && |db.approvals| <= |after.approvals|
    && (forall a :: 0 <= a < |db.approvals| ==> after.approvals[a] == db.approvals[a])
    && (forall a :: |db.approvals| <= a < |after.approvals| ==> after.approvals[a].run == |db.runs|)
  }

  /** What dispatch has checked when it inserts a run. */
  ghost predicate Room(cfg: Settings, db: Db, row: Run) {
    && row.task < |db.tasks|
    && !Has(db.runs, ActiveOf(row.task))
    && Count(db.runs, OfTask(row.task)) <= cfg.maxRetries
    && Count(db.runs, IsActive()) < Max(1, cfg.maxConcurrentRuns)
    && (db.tasks[row.task].payload.parent.Some? ==>
          Count(db.runs, ActiveChildOf(db.tasks, db.tasks[row.task].payload.parent.value)) < Max(1, cfg.maxFanOut))
  }

  lemma CapsAdd(cfg: Settings, tasks: seq<Task>, after: seq<Task>, runs: seq<Run>, row: Run)
    requires WithinCaps(cfg, tasks, runs) && SameTasks(tasks, after) && row.task < |tasks|
    requires Count(runs, OfTask(row.task)) <= cfg.maxRetries
    requires Count(runs, IsActive()) < Max(1, cfg.maxConcurrentRuns)
    requires tasks[row.task].payload.parent.Some? ==>
               Count(runs, ActiveChildOf(tasks, tasks[row.task].payload.parent.value)) < Max(1, cfg.maxFanOut)
    ensures WithinCaps(cfg, after, runs + [row])
  {
    CountAppend(runs, row, IsActive());
    forall t: Id ensures Count(runs + [row], OfTask(t)) <= Max(0, cfg.maxRetries + 1) {
      CountAppend(runs, row, OfTask(t));
    }
    forall p: Id ensures Count(runs + [row], ActiveChildOf(after, p)) <= Max(1, cfg.maxFanOut) {
      CountAppend(runs, row, ActiveChildOf(tasks, p));
      CountSame(runs + [row], runs + [row], ActiveChildOf(tasks, p), ActiveChildOf(after, p));
    }
  }

  lemma NumberedAdd(runs: seq<Run>, row: Run)
    requires Numbered(runs) && row.attempt == Count(runs, OfTask(row.task)) + 1
    ensures Numbered(runs + [row])
  {
    var after := runs + [row];
    CountAppend(runs, row, OfTask(row.task));
    forall k | 0 <= k < |after| ensures after[k].attempt == Count(after[..k + 1], OfTask(after[k].task)) {
      assert after[..k + 1] == if k < |runs| then runs[..k + 1] else after;
    }
  }

  lemma BookedAdd(runs: seq<Run>, ledger: seq<LedgerEntry>, row: Run)
    requires Booked(runs, ledger) && Active(row.status)
    ensures Booked(runs + [row], ledger)
  {
    forall e | 0 <= e < |ledger| ensures !ForRun(|runs|)(ledger[e]) {
    }
    CountZero(ledger, ForRun(|runs|));
  }

  lemma RunAddedLinks(db: Db, after: Db, row: Run)
    requires Linked(db) && Keyed(db) && OneActive(db.runs) && RunAdded(db, after, row)
    requires row.task < |db.tasks| && !Has(db.runs, ActiveOf(row.task)) && Active(row.status)
    requires Last(db.runs, RunKeyed(row.key)).None?
    ensures Linked(after) && Keyed(after) && OneActive(after.runs)
  {
    forall t | 0 <= t < |after.tasks| ensures LinksBack(after.tasks, t) {
      assert LinksBack(db.tasks, t);
    }
    forall i | 0 <= i < |db.runs|
      ensures db.runs[i].key != row.key && (db.runs[i].task == row.task ==> !Active(db.runs[i].status))
    {
      assert !RunKeyed(row.key)(db.runs[i]);
      assert !ActiveOf(row.task)(db.runs[i]);
    }
  }

  lemma RunAddedKeepsInv(cfg: Settings, db: Db, after: Db, row: Run, status: Status)
    requires Inv(cfg, db) && RunAdded(db, after, row) && Room(cfg, db, row)
    requires Last(db.runs, RunKeyed(row.key)).None? && Active(row.status) && row.lease.None?
    requires row.attempt == LastAttempt(db.runs, row.task) + 1
    requires db.tasks[row.task].cancelKey.None? && after.tasks == PutTaskStatus(db, row.task, status).tasks
    ensures Inv(cfg, after) && LeavesCancelled(db, after)
  {
    hide Numbered, WithinCaps, Booked, LeavesCancelled, AllSealed;
    LastAttemptCounts(db.runs, row.task);
    NumberedAdd(db.runs, row);
    CapsAdd(cfg, db.tasks, after.tasks, db.runs, row);
    BookedAdd(db.runs, db.ledger, row);
    RunAddedLinks(db, after, row);
    assert Unleased(after.runs);
    RunAddedConfined(db, after, row, status);
    ConfinedLeavesCancelled(db, after, row.task);
    SealsKept(db, after);
  }

  lemma RunAddedConfined(db: Db, after: Db, row: Run, status: Status)
    requires Linked(db) && RunAdded(db, after, row) && row.task < |db.tasks|
    requires db.tasks[row.task].cancelKey.None? && after.tasks == PutTaskStatus(db, row.task, status).tasks
    ensures Confined(db, after, row.task)
  {
  }

  /** A dispatch that inserted a run. */
  predicate Dispatched(step: Step) {
    step.out.Ok? && !step.out.replayed
  }

  lemma LaunchShape(db: Db, noted: Db, task: Id, actor: string, key: Key, p: DispatchPayload, now: Time, after: Db)
    requires task < |db.tasks| && noted == db.(audit := noted.audit)
    requires after == Launch(noted, task, actor, key, p, now)
    ensures RunAdded(db, after, NewRun(db, task, key, p, now))
    ensures after.tasks ==
            PutTaskStatus(db, task, if p.requiresApproval then AwaitingApproval else Records.Dispatched).tasks
  {
  }

  /** The tables right before the insertion of an accepted dispatch: at most a soft-limit note was added. */
  function NotedFor(cfg: Settings, cat: Catalog, db: Db, task: Id, actor: string, p: DispatchPayload, now: Time): Db
    requires task < |db.tasks|
  {
    if Gatekeep(cfg, cat, db, task, p.worker, p.profile, now) == Admit(true)
    then Log(db, actor, "budget.soft_exceeded", TaskRow(task)) else db
  }

  lemma DispatchChecks(
    cfg: Settings, cat: Catalog, db: Db, task: Id, actor: string, key: Key, p: DispatchPayload, now: Time, step: Step)
    requires step == DispatchTask(cfg, cat, db, task, actor, key, p, now) && Dispatched(step)
    ensures task < |db.tasks| && db.tasks[task].status in {Pending, Blocked, Failed, TimedOut}
    ensures step.out.id == |db.runs| && Last(db.runs, RunKeyed(key)).None?
    ensures !Has(db.runs, ActiveOf(task)) && Gatekeep(cfg, cat, db, task, p.worker, p.profile, now).Admit?
    ensures step.db == Launch(NotedFor(cfg, cat, db, task, actor, p, now), task, actor, key, p, now)
  {
  }

  /** An accepted dispatch passed every check and appended exactly the new run. */
  lemma DispatchShape(
    cfg: Settings, cat: Catalog, db: Db, task: Id, actor: string, key: Key, p: DispatchPayload, now: Time, step: Step)
    requires step == DispatchTask(cfg, cat, db, task, actor, key, p, now) && Dispatched(step)
    ensures task < |db.tasks| && db.tasks[task].status in {Pending, Blocked, Failed, TimedOut}
    ensures step.out.id == |db.runs| && Last(db.runs, RunKeyed(key)).None?
    ensures RunAdded(db, step.db, NewRun(db, task, key, p, now))
    ensures Room(cfg, db, NewRun(db, task, key, p, now))
    ensures step.db.tasks ==
            PutTaskStatus(db, task, if p.requiresApproval then AwaitingApproval else Records.Dispatched).tasks
  {
    DispatchChecks(cfg, cat, db, task, actor, key, p, now, step);
    AdmittedBelowCaps(cfg, cat, db, task, p.worker, p.profile, now);
    var noted := NotedFor(cfg, cat, db, task, actor, p, now);
    LaunchShape(db, noted, task, actor, key, p, now, step.db);
  }

  lemma DispatchElse(
    cfg: Settings, cat: Catalog, db: Db, task: Id, actor: string, key: Key, p: DispatchPayload, now: Time, step: Step)
    requires step == DispatchTask(cfg, cat, db, task, actor, key, p, now) && !Dispatched(step)
    ensures || step.db == db.(audit := step.db.audit)
            || (&& step.out == Refused("dependency_unmet")
                && task < |db.tasks| && db.tasks[task].status in {Pending, Blocked, Failed, TimedOut}
                && step.db == PutTaskStatus(db, task, Blocked))
  {
    hide Gatekeep, Launch, Last, Has, ActiveOf, Unmet, RunKeyed;
  }

  lemma OpenByStatus(cfg: Settings, db: Db, task: Id)
    requires Inv(cfg, db) && task < |db.tasks| && db.tasks[task].status != Cancelled
    ensures db.tasks[task].cancelKey.None?
  {
    assert !Sealed(db, task);
  }

  /** Only the status of one open task changed. */
  lemma StatusStepKeepsInv(cfg: Settings, db: Db, after: Db, task: Id, status: Status)
    requires Inv(cfg, db) && task < |db.tasks| && db.tasks[task].cancelKey.None?
    requires after.tasks == PutTaskStatus(db, task, status).tasks
    requires after.runs == db.runs && after.approvals == db.approvals && after.ledger == db.ledger
    ensures Inv(cfg, after) && LeavesCancelled(db, after)
  {
    SameRunsKeepCore(cfg, db, after);
    assert Confined(db, after, task);
    ConfinedLeavesCancelled(db, after, task);
    SealsKept(db, after);
  }

  lemma DispatchKeepsInv(
    cfg: Settings, cat: Catalog, db: Db, task: Id, actor: string, key: Key, p: DispatchPayload, now: Time, step: Step)
    requires Inv(cfg, db) && step == DispatchTask(cfg, cat, db, task, actor, key, p, now)
    ensures Inv(cfg, step.db) && LeavesCancelled(db, step.db)
  {
    hide Inv, DispatchTask, LeavesCancelled;
    if Dispatched(step) {
      DispatchShape(cfg, cat, db, task, actor, key, p, now, step);
      OpenByStatus(cfg, db, task);
      RunAddedKeepsInv(cfg, db, step.db, NewRun(db, task, key, p, now),
        if p.requiresApproval then AwaitingApproval else Records.Dispatched);
    } else {
      DispatchElse(cfg, cat, db, task, actor, key, p, now, step);
      if step.db == db.(audit := step.db.audit) {
        QuietKeepsInv(cfg, db, step.db);
      } else {
        OpenByStatus(cfg, db, task);
        StatusStepKeepsInv(cfg, db, step.db, task, Blocked);
      }
    }
  }
}
