/** Every lifecycle service keeps the invariant, with one exception that is characterised exactly. */
module Preservation {
  import opened Tables
  import opened Records
  import opened Controls
  import opened Lifecycle
  import opened Invariants

  // ---- What a step may touch ------------------------------------------------------------------

  predicate OnTask(runs: seq<Run>, task: Id, a: Approval) {
    a.run < |runs| && runs[a.run].task == task
  }

  /** Nothing about task `t` changed: its row, the states of its runs, its approvals. */
  ghost predicate Frozen(db: Db, after: Db, t: Id) {
    && t < |db.tasks| && t < |after.tasks| && after.tasks[t] == db.tasks[t]
    && |db.runs| <= |after.runs| && |db.approvals| <= |after.approvals|
    && (forall i :: 0 <= i < |db.runs| ==>
          after.runs[i].task == db.runs[i].task
          && (db.runs[i].task == t ==> after.runs[i].status == db.runs[i].status))
    && (forall i :: |db.runs| <= i < |after.runs| ==> after.runs[i].task != t)
    && (forall a :: 0 <= a < |db.approvals| ==>
          after.approvals[a].run == db.approvals[a].run
          && (OnTask(db.runs, t, db.approvals[a]) ==> after.approvals[a] == db.approvals[a]))
    && (forall a :: |db.approvals| <= a < |after.approvals| ==> !OnTask(after.runs, t, after.approvals[a]))
  }

  lemma FrozenStaysSealed(db: Db, after: Db, t: Id)
    requires Linked(db) && Frozen(db, after, t) && Sealed(db, t)
    ensures Sealed(after, t)
  {
    forall a | 0 <= a < |after.approvals| ensures !PendingOn(after.runs, t, after.approvals[a]) {
      if a < |db.approvals| {
        assert !PendingOn(db.runs, t, db.approvals[a]);
        assert OnTask(db.runs, t, db.approvals[a]) <==> OnTask(after.runs, t, after.approvals[a]);
      } else {
        assert !OnTask(after.runs, t, after.approvals[a]);
      }
    }
  }

  lemma FrozenTransitive(a: Db, b: Db, c: Db, t: Id)
    requires Linked(a) && Frozen(a, b, t) && Frozen(b, c, t)
    ensures Frozen(a, c, t)
  {
    forall k | 0 <= k < |a.approvals| && OnTask(a.runs, t, a.approvals[k])
      ensures c.approvals[k] == a.approvals[k]
    {
      assert OnTask(b.runs, t, b.approvals[k]);
    }
    forall k | |a.approvals| <= k < |c.approvals| ensures !OnTask(c.runs, t, c.approvals[k]) {
      if k < |b.approvals| {
        assert !OnTask(b.runs, t, b.approvals[k]);
        assert c.approvals[k].run == b.approvals[k].run;
      }
    }
  }

  /** A step leaves every cancelled task as it was and cancels no other. */
  ghost predicate LeavesCancelled(db: Db, after: Db) {
    && |db.tasks| <= |after.tasks|
    && (forall t :: 0 <= t < |db.tasks| && db.tasks[t].cancelKey.Some? ==> Frozen(db, after, t))
    && (forall t :: 0 <= t < |after.tasks| && after.tasks[t].cancelKey.Some? ==>
          t < |db.tasks| && db.tasks[t].cancelKey.Some?)
  }

  lemma SealsKept(db: Db, after: Db)
    requires Linked(db) && AllSealed(db) && LeavesCancelled(db, after)
    ensures AllSealed(after)
  {
    forall t | 0 <= t < |after.tasks| && after.tasks[t].cancelKey.Some? ensures Sealed(after, t) {
      FrozenStaysSealed(db, after, t);
    }
  }

  /** Only task `t0` was touched. */
  ghost predicate Elsewhere(db: Db, after: Db, t0: Id) {
    && t0 < |db.tasks| == |after.tasks|
    && (forall t :: 0 <= t < |db.tasks| && t != t0 ==> after.tasks[t] == db.tasks[t])
    && |db.runs| <= |after.runs| && |db.approvals| <= |after.approvals|
    && (forall i :: 0 <= i < |db.runs| ==>
          after.runs[i].task == db.runs[i].task
          && (db.runs[i].task != t0 ==> after.runs[i].status == db.runs[i].status))
    && (forall i :: |db.runs| <= i < |after.runs| ==> after.runs[i].task == t0)
    && (forall a :: 0 <= a < |db.approvals| ==>
          after.approvals[a].run == db.approvals[a].run
          && (!OnTask(db.runs, t0, db.approvals[a]) ==> after.approvals[a] == db.approvals[a]))
    && (forall a :: |db.approvals| <= a < |after.approvals| ==> OnTask(after.runs, t0, after.approvals[a]))
  }

  /** Only task `t0` was touched, and it is not cancelled. */
  ghost predicate Confined(db: Db, after: Db, t0: Id) {
    Elsewhere(db, after, t0) && db.tasks[t0].cancelKey.None? && after.tasks[t0].cancelKey.None?
  }

  lemma ElsewhereFrozen(db: Db, after: Db, t0: Id, t: Id)
    requires Linked(db) && Elsewhere(db, after, t0) && t < |db.tasks| && t != t0
    ensures Frozen(db, after, t)
  {
    forall a | 0 <= a < |db.approvals| && OnTask(db.runs, t, db.approvals[a])
      ensures after.approvals[a] == db.approvals[a]
    {
      assert !OnTask(db.runs, t0, db.approvals[a]);
    }
    forall a | |db.approvals| <= a < |after.approvals| ensures !OnTask(after.runs, t, after.approvals[a]) {
      assert OnTask(after.runs, t0, after.approvals[a]);
    }
  }

  lemma ConfinedLeavesCancelled(db: Db, after: Db, t0: Id)
    requires Linked(db) && Confined(db, after, t0)
    ensures LeavesCancelled(db, after)
  {
    forall t | 0 <= t < |db.tasks| && db.tasks[t].cancelKey.Some? ensures Frozen(db, after, t) {
      ElsewhereFrozen(db, after, t0, t);
    }
  }

  lemma ActiveTaskIsOpen(cfg: Settings, db: Db, run: Id)
    requires Inv(cfg, db) && run < |db.runs| && Active(db.runs[run].status)
    ensures db.tasks[db.runs[run].task].cancelKey.None?
  {
    assert !Sealed(db, db.runs[run].task);
  }

  /** Rows kept their identity and state; only lease, schedule and report columns may differ. */
  ghost predicate Quiet(db: Db, after: Db) {
    && after.tasks == db.tasks && after.approvals == db.approvals && after.ledger == db.ledger
    && |after.runs| == |db.runs|
    && forall i :: 0 <= i < |db.runs| ==>
         && SameRun(db.runs[i], after.runs[i]) && after.runs[i].status == db.runs[i].status
         && (Terminal(db.runs[i].status) ==> after.runs[i].lease == db.runs[i].lease)
  }

  lemma QuietKeepsInv(cfg: Settings, db: Db, after: Db)
    requires Inv(cfg, db) && Quiet(db, after)
    ensures Inv(cfg, after) && LeavesCancelled(db, after)
  {
    QuietCounts(cfg, db, after);
    QuietRows(cfg, db, after);
    QuietBooks(db, after);
    SealsKept(db, after);
  }

  lemma QuietRows(cfg: Settings, db: Db, after: Db)
    requires Core(cfg, db) && Quiet(db, after)
    ensures Linked(after) && Keyed(after) && OneActive(after.runs) && Unleased(after.runs)
    ensures LeavesCancelled(db, after)
  {
    hide WithinCaps, Numbered, Booked, LeavesCancelled;
    QuietLeaves(db, after);
  }

  lemma QuietLeaves(db: Db, after: Db)
    requires Linked(db) && Quiet(db, after)
    ensures LeavesCancelled(db, after)
  {
  }

  lemma QuietBooks(db: Db, after: Db)
    requires Booked(db.runs, db.ledger) && Quiet(db, after)
    ensures Booked(after.runs, after.ledger)
  {
  }

  lemma QuietCounts(cfg: Settings, db: Db, after: Db)
    requires Core(cfg, db) && Quiet(db, after)
    ensures Numbered(after.runs) && WithinCaps(cfg, after.tasks, after.runs)
  {
    CountSame(db.runs, after.runs, IsActive(), IsActive());
    forall t: Id ensures Count(after.runs, OfTask(t)) == Count(db.runs, OfTask(t)) {
      CountSame(db.runs, after.runs, OfTask(t), OfTask(t));
    }
    forall p: Id
      ensures Count(after.runs, ActiveChildOf(after.tasks, p)) == Count(db.runs, ActiveChildOf(db.tasks, p))
    {
      CountSame(db.runs, after.runs, ActiveChildOf(db.tasks, p), ActiveChildOf(after.tasks, p));
    }
    forall k | 0 <= k < |after.runs|
      ensures after.runs[k].attempt == Count(after.runs[..k + 1], OfTask(after.runs[k].task))
    {
      var p := OfTask(after.runs[k].task);
      CountSame(db.runs[..k + 1], after.runs[..k + 1], p, p);
    }
  }

  // ---- Leases and reports ---------------------------------------------------------------------

  lemma {:induction false} ClaimEachShape(db: Db, ids: seq<Id>, owner: string, now: Time, expires: Time)
    requires forall k :: 0 <= k < |ids| ==> ids[k] < |db.runs|
    requires forall j, k :: 0 <= j < k < |ids| ==> ids[j] != ids[k]
    ensures var after := ClaimEach(db, ids, owner, now, expires);
            && |after.runs| == |db.runs|
            && after == db.(runs := after.runs, audit := after.audit)
            && forall i :: 0 <= i < |db.runs| ==>
                 after.runs[i] == if i in ids then Claimed(db.runs[i], owner, now, expires) else db.runs[i]
  {
    if ids != [] {
      var init := ids[..|ids| - 1];
      ClaimEachShape(db, init, owner, now, expires);
      assert ids == init + [ids[|ids| - 1]];
    }
  }

  /** The claim query returns distinct claimable runs, soonest first, and misses none it had room for. */
  lemma {:induction false} ClaimQueryShape(runs: seq<Run>, taken: set<Id>, now: Time, limit: nat)
    ensures var ids := ClaimQuery(runs, taken, now, limit);
            && |ids| <= limit
            && (forall k :: 0 <= k < |ids| ==>
                  ids[k] < |runs| && ids[k] !in taken && Claimable(runs[ids[k]], now))
            && (forall j, k :: 0 <= j < k < |ids| ==> Sooner(runs, ids[j], ids[k]))
            && (forall i :: 0 <= i < |runs| && i !in taken && i !in ids && Claimable(runs[i], now) ==>
                  |ids| == limit && forall k :: 0 <= k < |ids| ==> Sooner(runs, ids[k], i))
    decreases limit
  {
    var next := Soonest(runs, |runs|, taken, now);
    if limit > 0 && next.Some? {
      ClaimQueryShape(runs, taken + {next.value}, now, limit - 1);
      var rest := ClaimQuery(runs, taken + {next.value}, now, limit - 1);
      var ids := [next.value] + rest;
      assert forall k :: 0 < k < |ids| ==> ids[k] == rest[k - 1];
      forall i | 0 <= i < |runs| && i !in taken && i !in ids && Claimable(runs[i], now)
        ensures |ids| == limit && forall k :: 0 <= k < |ids| ==> Sooner(runs, ids[k], i)
      {
        assert i !in rest && i != next.value;
      }
    }
  }

  lemma ClaimQueryDistinct(runs: seq<Run>, taken: set<Id>, now: Time, limit: nat, ids: seq<Id>)
    requires ids == ClaimQuery(runs, taken, now, limit)
    ensures forall k :: 0 <= k < |ids| ==> ids[k] < |runs| && Claimable(runs[ids[k]], now)
    ensures forall j, k :: 0 <= j < k < |ids| ==> ids[j] != ids[k]
  {
    ClaimQueryShape(runs, taken, now, limit);
    forall j, k | 0 <= j < k < |ids| ensures ids[j] != ids[k] {
      assert Sooner(runs, ids[j], ids[k]);
    }
  }

  lemma ClaimIsQuiet(db: Db, owner: string, duration: Time, limit: int, locked: set<Id>, now: Time)
    ensures Quiet(db, ClaimRuns(db, owner, duration, limit, locked, now).db)
  {
    if limit >= 1 {
      var ids := ClaimQuery(db.runs, locked, now, limit);
      ClaimQueryDistinct(db.runs, locked, now, limit, ids);
      ClaimEachIsQuiet(db, ids, owner, now, now + duration);
    }
  }

  lemma ClaimEachIsQuiet(db: Db, ids: seq<Id>, owner: string, now: Time, expires: Time)
    requires forall k :: 0 <= k < |ids| ==> ids[k] < |db.runs| && Claimable(db.runs[ids[k]], now)
    requires forall j, k :: 0 <= j < k < |ids| ==> ids[j] != ids[k]
    ensures Quiet(db, ClaimEach(db, ids, owner, now, expires))
  {
    ClaimEachShape(db, ids, owner, now, expires);
  }

  lemma HeartbeatIsQuiet(db: Db, run: Id, owner: string, duration: Time, now: Time)
    ensures Quiet(db, Heartbeat(db, run, owner, duration, now).db)
  {
  }

  lemma ReleaseIsQuiet(db: Db, run: Id, owner: string, next: Time, now: Time)
    ensures Quiet(db, Release(db, run, owner, next, now).db)
  {
  }

  lemma ObserveIsQuiet(db: Db, run: Id, report: Report)
    ensures Quiet(db, Observe(db, run, report).db)
  {
  }

  // ---- Run rows -------------------------------------------------------------------------------

  lemma EditedKeepsInv(cfg: Settings, db: Db, after: Db, i: Id, row: Run)
    requires Inv(cfg, db) && Edited(db, after, i, row) && Confined(db, after, row.task)
    ensures Inv(cfg, after) && LeavesCancelled(db, after)
  {
    EditedKeepsCore(cfg, db, after, i, row);
    ConfinedLeavesCancelled(db, after, row.task);
    SealsKept(db, after);
  }

  lemma EndedKeepsInv(cfg: Settings, db: Db, after: Db, i: Id, row: Run)
    requires Inv(cfg, db) && Ended(db, after, i, row) && Confined(db, after, row.task)
    ensures Inv(cfg, after) && LeavesCancelled(db, after)
  {
    EndedKeepsCore(cfg, db, after, i, row);
    ConfinedLeavesCancelled(db, after, row.task);
    SealsKept(db, after);
  }

  /** Only approvals of run `i` changed or were added. */
  ghost predicate ApprovalsOn(db: Db, after: Db, i: Id) {
    && |db.approvals| <= |after.approvals|
    && (forall a :: 0 <= a < |db.approvals| ==>
          after.approvals[a].run == db.approvals[a].run
          && (db.approvals[a].run != i ==> after.approvals[a] == db.approvals[a]))
    && (forall a :: |db.approvals| <= a < |after.approvals| ==> after.approvals[a].run == i)
  }

  lemma RunStepConfined(db: Db, after: Db, i: Id, row: Run, status: Status)
    requires Linked(db) && Rewritten(db, after, i, row) && db.tasks[row.task].cancelKey.None?
    requires ApprovalsOn(db, after, i)
    requires after.tasks == PutTaskStatus(db, row.task, status).tasks
    ensures Confined(db, after, row.task)
  {
  }

  /** An open task's run was rewritten, its task restated, its approvals possibly changed. */
  lemma RunStepKeepsInv(cfg: Settings, db: Db, after: Db, i: Id, row: Run, status: Status)
    requires Inv(cfg, db) && i < |db.runs| && SameRun(db.runs[i], row) && db.tasks[row.task].cancelKey.None?
    requires Ended(db, after, i, row) || Edited(db, after, i, row)
    requires ApprovalsOn(db, after, i)
    requires after.tasks == PutTaskStatus(db, row.task, status).tasks
    ensures Inv(cfg, after) && LeavesCancelled(db, after)
  {
    RunStepConfined(db, after, i, row, status);
    if Ended(db, after, i, row) {
      EndedKeepsInv(cfg, db, after, i, row);
    } else {
      EditedKeepsInv(cfg, db, after, i, row);
    }
  }

  /** A run without an entry is always filed: the conflict branch is out of reach for it. */
  lemma IngestFresh(cfg: Settings, db: Db, run: Id, actor: string, now: Time)
    requires run < |db.runs| && db.runs[run].task < |db.tasks|
    requires Count(db.ledger, ForRun(run)) == 0
    ensures var filing := Ingest(cfg, db, run, actor, now);
            var e := EntryFor(cfg, db.tasks, run, db.runs[run], now);
            filing.Filed? && filing.db == db.(ledger := db.ledger + [e], audit := filing.db.audit)
  {
    CountZero(db.ledger, ForRun(run));
  }

  lemma AttemptIsPositive(runs: seq<Run>, i: Id)
    requires Numbered(runs) && i < |runs|
    ensures runs[i].attempt >= 1
  {
    var p := OfTask(runs[i].task);
    assert runs[..i + 1] == runs[..i] + [runs[i]];
    CountAppend(runs[..i], runs[i], p);
  }

  /** Filing a run that has just ended completes its `Ended` step. */
  lemma FilingEnds(cfg: Settings, db: Db, staged: Db, i: Id, row: Run, actor: string, now: Time)
    requires Core(cfg, db) && Rewritten(db, staged, i, row) && staged.ledger == db.ledger
    requires Active(db.runs[i].status) && Terminal(row.status) && row.lease.None?
    requires row.task < |staged.tasks|
    ensures var filing := Ingest(cfg, staged, i, actor, now);
            && filing.Filed? && Ended(db, filing.db, i, row)
            && filing.db == staged.(ledger := filing.db.ledger, audit := filing.db.audit)
  {
    AttemptIsPositive(db.runs, i);
    IngestFresh(cfg, staged, i, actor, now);
  }

  lemma RecordOutcomeFrame(cfg: Settings, cat: Catalog, db: Db, run: Id, actor: string, now: Time)
    requires run < |db.runs| && db.runs[run].task < |db.tasks|
    ensures var after := RecordOutcome(cfg, cat, db, run, actor, now);
            after == db.(circuits := after.circuits, audit := after.audit)
  {
  }

  predicate Accepts(db: Db, run: Id, to: Status) {
    run < |db.runs| && MayMove(db.runs[run].status, to) && db.runs[run].task < |db.tasks|
  }

  lemma RestatedShape(
    db: Db, run: Id, to: Status, actor: string, code: Option<string>, summary: Option<string>, now: Time, row: Run,
    after: Db)
    requires run < |db.runs| && db.runs[run].task < |db.tasks| && row == Moved(db.runs[run], to, code, summary, now)
    requires after == Restated(db, run, to, actor, code, summary, now)
    ensures after.tasks == PutTaskStatus(db, row.task, TaskStatusAfter(db.approvals, run, db.runs[run], to)).tasks
    ensures after.approvals == db.approvals && after.ledger == db.ledger && Rewritten(db, after, run, row)
    ensures row.status == to && (Terminal(to) ==> row.lease.None?)
  {
    hide TaskStatusAfter;
  }

  lemma AccountedShape(
    cfg: Settings, cat: Catalog, db: Db, moved: Db, run: Id, to: Status, actor: string, now: Time, row: Run,
    filing: Filing)
    requires Core(cfg, db) && Rewritten(db, moved, run, row) && moved.ledger == db.ledger
    requires Active(db.runs[run].status) && row.task < |moved.tasks|
    requires row.status == to && (Terminal(to) ==> row.lease.None?) && (Terminal(to) || Active(to))
    requires filing == Accounted(cfg, cat, moved, run, to, actor, now)
    ensures filing.Filed? && filing.db.tasks == moved.tasks && filing.db.approvals == moved.approvals
    ensures if Terminal(to) then Ended(db, filing.db, run, row) else Edited(db, filing.db, run, row)
  {
    var judged :=
      if to in {Completed, Failed, TimedOut} then RecordOutcome(cfg, cat, moved, run, actor, now) else moved;
    RecordOutcomeFrame(cfg, cat, moved, run, actor, now);
    if Terminal(to) {
      FilingEnds(cfg, db, judged, run, row, actor, now);
    }
  }

  /** What an accepted transition does to the tables other than circuits and audit. */
  lemma TransitionShape(
    cfg: Settings, cat: Catalog, db: Db, run: Id, to: Status, actor: string, code: Option<string>,
    summary: Option<string>, now: Time, row: Run, step: Step)
    requires Core(cfg, db) && Accepts(db, run, to)
    requires row == Moved(db.runs[run], to, code, summary, now)
    requires step == TransitionRun(cfg, cat, db, run, to, actor, code, summary, now)
    ensures step.out == Ok(run, false) && step.db.approvals == db.approvals
    ensures step.db.tasks == PutTaskStatus(db, row.task, TaskStatusAfter(db.approvals, run, db.runs[run], to)).tasks
    ensures if Terminal(to) then Ended(db, step.db, run, row) else Edited(db, step.db, run, row)
  {
    var moved := Restated(db, run, to, actor, code, summary, now);
    RestatedShape(db, run, to, actor, code, summary, now, row, moved);
    AccountedShape(cfg, cat, db, moved, run, to, actor, now, row, Accounted(cfg, cat, moved, run, to, actor, now));
  }

  /** What an accepted transition leaves behind. */
  ghost predicate TransitionEffect(db: Db, step: Step, run: Id, to: Status, row: Run) {
    && Accepts(db, run, to) && step.out == Ok(run, false) && step.db.approvals == db.approvals
    && SameRun(db.runs[run], row) && row.status == to && row.workerRunId == db.runs[run].workerRunId
    && row.dispatchAttempts == db.runs[run].dispatchAttempts && (row.lease == db.runs[run].lease || row.lease.None?)
    && step.db.tasks == PutTaskStatus(db, row.task, TaskStatusAfter(db.approvals, run, db.runs[run], to)).tasks
    && if Terminal(to) then Ended(db, step.db, run, row) else Edited(db, step.db, run, row)
  }

  lemma EffectKeepsInv(cfg: Settings, db: Db, step: Step, run: Id, to: Status, row: Run)
    requires Inv(cfg, db) && TransitionEffect(db, step, run, to, row)
    ensures Inv(cfg, step.db) && LeavesCancelled(db, step.db)
  {
    ActiveTaskIsOpen(cfg, db, run);
    RunStepKeepsInv(cfg, db, step.db, run, row, TaskStatusAfter(db.approvals, run, db.runs[run], to));
  }

  lemma TransitionHasEffect(
    cfg: Settings, cat: Catalog, db: Db, run: Id, to: Status, actor: string, code: Option<string>,
    summary: Option<string>, now: Time, step: Step)
    returns (row: Run)
    requires Core(cfg, db) && Accepts(db, run, to)
    requires step == TransitionRun(cfg, cat, db, run, to, actor, code, summary, now)
    ensures TransitionEffect(db, step, run, to, row)
  {
    row := Moved(db.runs[run], to, code, summary, now);
    TransitionShape(cfg, cat, db, run, to, actor, code, summary, now, row, step);
  }

  lemma TransitionElse(
    cfg: Settings, cat: Catalog, db: Db, run: Id, to: Status, actor: string, code: Option<string>,
    summary: Option<string>, now: Time, step: Step)
    requires !Accepts(db, run, to)
    requires step == TransitionRun(cfg, cat, db, run, to, actor, code, summary, now)
    ensures step.db == db && step.out in {Refused("not_found"), Refused("invalid_transition")}
  {
  }

  /** Moving a run keeps the invariant, and its usage is never found to be filed differently before. */
  lemma TransitionKeepsInv(
    cfg: Settings, cat: Catalog, db: Db, run: Id, to: Status, actor: string, code: Option<string>,
    summary: Option<string>, now: Time, step: Step)
    requires Inv(cfg, db) && step == TransitionRun(cfg, cat, db, run, to, actor, code, summary, now)
    ensures Inv(cfg, step.db) && LeavesCancelled(db, step.db)
    ensures step.out != Refused("usage_ingest_conflict")
  {
    if Accepts(db, run, to) {
      var row := TransitionHasEffect(cfg, cat, db, run, to, actor, code, summary, now, step);
      EffectKeepsInv(cfg, db, step, run, to, row);
    } else {
      TransitionElse(cfg, cat, db, run, to, actor, code, summary, now, step);
      QuietKeepsInv(cfg, db, db);
    }
  }
}
