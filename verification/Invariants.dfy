/** What every committed state of the lifecycle satisfies, and that every service call keeps it. */
module Invariants {
  import opened Tables
  import opened Records
  import opened Controls
  import opened Lifecycle

  /** References point to rows that exist; parents and dependencies point to older tasks. */
  ghost predicate Linked(db: Db) {
    && (forall i :: 0 <= i < |db.runs| ==> db.runs[i].task < |db.tasks|)
    && (forall a :: 0 <= a < |db.approvals| ==> db.approvals[a].run < |db.runs|)
    && (forall e :: 0 <= e < |db.ledger| ==> db.ledger[e].run < |db.runs|)
    && (forall t :: 0 <= t < |db.tasks| ==> LinksBack(db.tasks, t))
  }

  ghost predicate LinksBack(tasks: seq<Task>, t: Id)
    requires t < |tasks|
  {
    && (tasks[t].payload.parent.Some? ==> tasks[t].payload.parent.value < t)
    && forall d :: d in tasks[t].payload.dependencies ==> d < t
  }

  ghost predicate Keyed(db: Db) {
    && (forall i, j :: 0 <= i < j < |db.runs| ==> db.runs[i].key != db.runs[j].key)
    && (forall i, j :: 0 <= i < j < |db.tasks| ==> db.tasks[i].key != db.tasks[j].key)
  }

  /** A task's runs are numbered 1, 2, ... in creation order. */
  ghost predicate Numbered(runs: seq<Run>) {
    forall i :: 0 <= i < |runs| ==> runs[i].attempt == Count(runs[..i + 1], OfTask(runs[i].task))
  }

  ghost predicate OneActive(runs: seq<Run>) {
    && (forall i :: 0 <= i < |runs| ==> Active(runs[i].status) || Terminal(runs[i].status))
    && forall i, j :: 0 <= i < j < |runs| && runs[i].task == runs[j].task && Active(runs[i].status) ==>
         !Active(runs[j].status)
  }

  ghost predicate WithinCaps(cfg: Settings, tasks: seq<Task>, runs: seq<Run>) {
    && Count(runs, IsActive()) <= Max(1, cfg.maxConcurrentRuns)
    && (forall t: Id :: Count(runs, OfTask(t)) <= Max(0, cfg.maxRetries + 1))
    && (forall p: Id :: Count(runs, ActiveChildOf(tasks, p)) <= Max(1, cfg.maxFanOut))
  }

  /** A run is in the ledger once if it ended and not at all while it is active. */
  ghost predicate Booked(runs: seq<Run>, ledger: seq<LedgerEntry>) {
    && (forall i :: 0 <= i < |runs| ==> Count(ledger, ForRun(i)) == if Terminal(runs[i].status) then 1 else 0)
    && (forall e :: 0 <= e < |ledger| ==>
          && ledger[e].run < |runs|
          && ledger[e].outcome == ledger[e].payload.status == runs[ledger[e].run].status
          && ledger[e].retryNumber == runs[ledger[e].run].attempt - 1)
  }

  ghost predicate Unleased(runs: seq<Run>) {
    forall i :: 0 <= i < |runs| && Terminal(runs[i].status) ==> runs[i].lease.None?
  }

  /** A cancelled task stays cancelled, with nothing running and nothing left to approve. */
  ghost predicate Sealed(db: Db, t: Id)
    requires t < |db.tasks|
  {
    && db.tasks[t].status == Cancelled
    && (forall i :: 0 <= i < |db.runs| && db.runs[i].task == t ==> !Active(db.runs[i].status))
    && (forall a :: 0 <= a < |db.approvals| ==> !PendingOn(db.runs, t, db.approvals[a]))
  }

  ghost predicate AllSealed(db: Db) {
    forall t :: 0 <= t < |db.tasks| && db.tasks[t].cancelKey.Some? ==> Sealed(db, t)
  }

  /** The invariant without its cancellation part. */
  ghost predicate Core(cfg: Settings, db: Db) {
    && Linked(db)
    && Keyed(db)
    && Numbered(db.runs)
    && OneActive(db.runs)
    && WithinCaps(cfg, db.tasks, db.runs)
    && Booked(db.runs, db.ledger)
    && Unleased(db.runs)
  }

  ghost predicate Inv(cfg: Settings, db: Db) {
    Core(cfg, db) && AllSealed(db)
  }

  lemma EmptyInv(cfg: Settings)
    ensures Inv(cfg, EMPTY)
  {
  }

  // ---- Shapes of change -----------------------------------------------------------------------

  /** The task table changed in status and cancel keys only. */
  ghost predicate SameTasks(a: seq<Task>, b: seq<Task>) {
    |a| == |b| && forall t :: 0 <= t < |a| ==>
      a[t].payload == b[t].payload && a[t].key == b[t].key && a[t].requester == b[t].requester
  }

  /** The identity of a run row, which no service ever rewrites. */
  ghost predicate SameRun(a: Run, b: Run) {
    && a.task == b.task && a.attempt == b.attempt && a.key == b.key
    && a.worker == b.worker && a.profile == b.profile && a.request == b.request && a.createdAt == b.createdAt
  }

  /** Approvals keep their runs; new ones belong to existing runs. */
  ghost predicate SameApprovals(db: Db, after: Db) {
    && |db.approvals| <= |after.approvals|
    && (forall a :: 0 <= a < |db.approvals| ==> after.approvals[a].run == db.approvals[a].run)
    && (forall a :: |db.approvals| <= a < |after.approvals| ==> after.approvals[a].run < |db.runs|)
  }

  /** One existing run row was rewritten. */
  ghost predicate Rewritten(db: Db, after: Db, i: Id, row: Run) {
    && i < |db.runs| && after.runs == db.runs[i := row] && SameRun(db.runs[i], row)
    && SameTasks(db.tasks, after.tasks) && SameApprovals(db, after)
  }

  /** The rewritten run did not end. */
  ghost predicate Edited(db: Db, after: Db, i: Id, row: Run) {
    && Rewritten(db, after, i, row) && after.ledger == db.ledger
    && ((Active(db.runs[i].status) && Active(row.status))
        || (row.status == db.runs[i].status && (Terminal(row.status) ==> row.lease.None?)))
  }

  ghost predicate EntryOf(e: LedgerEntry, i: Id, row: Run) {
    e.run == i && e.outcome == e.payload.status == row.status && e.retryNumber == row.attempt - 1
  }

  /** The rewritten run ended: its lease was dropped and it was entered in the ledger. */
  ghost predicate Ended(db: Db, after: Db, i: Id, row: Run) {
    && Rewritten(db, after, i, row)
    && Active(db.runs[i].status) && Terminal(row.status) && row.lease.None?
    && |after.ledger| == |db.ledger| + 1
    && after.ledger == db.ledger + [after.ledger[|db.ledger|]]
    && EntryOf(after.ledger[|db.ledger|], i, row)
  }

  lemma NumberedEdit(runs: seq<Run>, i: nat, row: Run)
    requires Numbered(runs) && i < |runs| && SameRun(runs[i], row)
    ensures Numbered(runs[i := row])
  {
    var after := runs[i := row];
    forall k | 0 <= k < |after| ensures after[k].attempt == Count(after[..k + 1], OfTask(after[k].task)) {
      var p := OfTask(after[k].task);
      CountSame(runs[..k + 1], after[..k + 1], p, p);
    }
  }

  lemma CapsEdit(cfg: Settings, tasks: seq<Task>, after: seq<Task>, runs: seq<Run>, i: nat, row: Run)
    requires WithinCaps(cfg, tasks, runs) && SameTasks(tasks, after)
    requires i < |runs| && SameRun(runs[i], row) && (Active(row.status) ==> Active(runs[i].status))
    ensures WithinCaps(cfg, after, runs[i := row])
  {
    CountUpdate(runs, i, row, IsActive());
    forall t: Id ensures Count(runs[i := row], OfTask(t)) <= Max(0, cfg.maxRetries + 1) {
      CountUpdate(runs, i, row, OfTask(t));
    }
    forall p: Id ensures Count(runs[i := row], ActiveChildOf(after, p)) <= Max(1, cfg.maxFanOut) {
      CountUpdate(runs, i, row, ActiveChildOf(tasks, p));
      CountSame(runs[i := row], runs[i := row], ActiveChildOf(tasks, p), ActiveChildOf(after, p));
    }
  }

  lemma LinkedEdit(db: Db, after: Db, i: Id, row: Run)
    requires Linked(db) && Rewritten(db, after, i, row)
    requires forall e :: 0 <= e < |after.ledger| ==> after.ledger[e].run < |db.runs|
    ensures Linked(after)
  {
    forall t | 0 <= t < |after.tasks| ensures LinksBack(after.tasks, t) {
      assert LinksBack(db.tasks, t);
    }
  }

  lemma KeyedEdit(db: Db, after: Db, i: Id, row: Run)
    requires Keyed(db) && Rewritten(db, after, i, row)
    ensures Keyed(after)
  {
  }

  lemma OneActiveEdit(runs: seq<Run>, i: Id, row: Run)
    requires OneActive(runs) && i < |runs| && SameRun(runs[i], row)
    requires Active(row.status) || Terminal(row.status)
    requires Active(row.status) ==> Active(runs[i].status)
    ensures OneActive(runs[i := row])
  {
  }

  lemma CountsAtEnd(runs: seq<Run>, ledger: seq<LedgerEntry>, i: Id, row: Run, e: LedgerEntry)
    requires Booked(runs, ledger) && i < |runs| && e.run == i
    requires Active(runs[i].status) && Terminal(row.status)
    ensures forall k :: 0 <= k < |runs| ==>
              Count(ledger + [e], ForRun(k)) == if Terminal(runs[i := row][k].status) then 1 else 0
  {
    forall k | 0 <= k < |runs|
      ensures Count(ledger + [e], ForRun(k)) == if Terminal(runs[i := row][k].status) then 1 else 0
    {
      CountAppend(ledger, e, ForRun(k));
    }
  }

  lemma BookedEnd(runs: seq<Run>, ledger: seq<LedgerEntry>, i: Id, row: Run, e: LedgerEntry)
    requires Booked(runs, ledger) && i < |runs|
    requires Active(runs[i].status) && Terminal(row.status) && EntryOf(e, i, row)
    ensures Booked(runs[i := row], ledger + [e])
  {
    CountsAtEnd(runs, ledger, i, row, e);
    CountZero(ledger, ForRun(i));
    forall k | 0 <= k < |ledger| ensures ledger[k].run != i {
      assert !ForRun(i)(ledger[k]);
    }
  }

  lemma BookedEdit(runs: seq<Run>, ledger: seq<LedgerEntry>, i: Id, row: Run)
    requires Booked(runs, ledger) && i < |runs| && SameRun(runs[i], row)
    requires (Active(runs[i].status) && Active(row.status)) || runs[i].status == row.status
    ensures Booked(runs[i := row], ledger)
  {
    if Active(runs[i].status) {
      CountZero(ledger, ForRun(i));
      forall k | 0 <= k < |ledger| ensures ledger[k].run != i {
        assert !ForRun(i)(ledger[k]);
      }
    }
  }

  lemma EditedKeepsCore(cfg: Settings, db: Db, after: Db, i: Id, row: Run)
    requires Core(cfg, db) && Edited(db, after, i, row)
    ensures Core(cfg, after)
  {
    hide Numbered, WithinCaps;
    LinkedEdit(db, after, i, row);
    KeyedEdit(db, after, i, row);
    NumberedEdit(db.runs, i, row);
    OneActiveEdit(db.runs, i, row);
    CapsEdit(cfg, db.tasks, after.tasks, db.runs, i, row);
    BookedEdit(db.runs, db.ledger, i, row);
  }

  lemma EndedKeepsCore(cfg: Settings, db: Db, after: Db, i: Id, row: Run)
    requires Core(cfg, db) && Ended(db, after, i, row)
    ensures Core(cfg, after)
  {
    LinkedEdit(db, after, i, row);
    KeyedEdit(db, after, i, row);
    NumberedEdit(db.runs, i, row);
    OneActiveEdit(db.runs, i, row);
    CapsEdit(cfg, db.tasks, after.tasks, db.runs, i, row);
    BookedEnd(db.runs, db.ledger, i, row, after.ledger[|db.ledger|]);
  }

  /** Nothing but task statuses, approvals and logs changed. */
  lemma SameRunsKeepCore(cfg: Settings, db: Db, after: Db)
    requires Core(cfg, db)
    requires after.runs == db.runs && after.ledger == db.ledger
    requires SameTasks(db.tasks, after.tasks) && SameApprovals(db, after)
    ensures Core(cfg, after)
  {
    forall t | 0 <= t < |after.tasks| ensures LinksBack(after.tasks, t) {
      assert LinksBack(db.tasks, t);
    }
    forall p: Id ensures Count(after.runs, ActiveChildOf(after.tasks, p)) <= Max(1, cfg.maxFanOut) {
      CountSame(db.runs, db.runs, ActiveChildOf(db.tasks, p), ActiveChildOf(after.tasks, p));
    }
  }
}
