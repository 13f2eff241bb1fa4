/** Reviewed work: when a task whose run was handed over counts as completed, over whole histories. */
module Reviews {
  import opened Tables
  import opened Records
  import opened Controls
  import opened Lifecycle
  import opened Invariants
  import opened Preservation
  import opened Admission
  import opened Histories
  import opened Identity
  import opened Endings
  import opened Moves
  import opened Deciders
  import Effects
  import Gate

  // ---- Hand-overs of the current run --------------------------------------------------------------

  predicate Reviewed(db: Db, t: Id) {
    t < |db.tasks| && db.tasks[t].payload.independentReview
  }

  /** The task's newest run. */
  predicate Current(runs: seq<Run>, t: Id, c: Id) {
    c < |runs| && runs[c].task == t && forall j :: c < j < |runs| ==> runs[j].task != t
  }

  predicate Delivered(row: Run) {
    row.details.handoff.Some? && row.details.handoff.value.handoff.outcome != "blocked"
  }

  /** The current run was handed over, and the approval of its hand-over waits. */
  ghost predicate UnderReview(db: Db, t: Id) {
    exists c: Id :: Current(db.runs, t, c) && db.runs[c].details.handoff.Some? && AwaitsReview(db.approvals, c)
  }

  ghost predicate Slipped(db: Db, t: Id) {
    Reviewed(db, t) && db.tasks[t].status == Completed && UnderReview(db, t)
  }

  ghost predicate NoneSlips(db: Db) {
    forall t: Id :: !Slipped(db, t)
  }

  /** The reviewer has approved the completion of some run of the task. */
  predicate Vouches(db: Db, t: Id, a: Id) {
    && t < |db.tasks| && a < |db.approvals| && OnTask(db.runs, t, db.approvals[a])
    && db.approvals[a].action == "completion" && db.approvals[a].verdict == Approved
    && db.approvals[a].decidedBy.Some? && db.approvals[a].decidedBy == db.tasks[t].payload.reviewer
  }

  ghost predicate Vouched(db: Db, t: Id) {
    exists a: Id :: Vouches(db, t, a)
  }

  /** The task counts as completed though its current run was delivered for a review nobody has made. */
  ghost predicate Unvouched(db: Db, t: Id) {
    && Reviewed(db, t) && db.tasks[t].status == Completed && !Vouched(db, t)
    && exists c: Id :: Current(db.runs, t, c) && Delivered(db.runs[c])
  }

  /** Only the newest run of a task may be under way. */
  ghost predicate EarlierEnded(runs: seq<Run>) {
    forall i, j :: 0 <= i < j < |runs| && runs[i].task == runs[j].task ==> Terminal(runs[i].status)
  }

  /** A delivered run under way on a reviewed task has its review before it. */
  ghost predicate Promised(db: Db, r: Id)
    requires r < |db.runs|
  {
    Active(db.runs[r].status) && Reviewed(db, db.runs[r].task) && Delivered(db.runs[r]) ==>
      AwaitsReview(db.approvals, r)
  }

  /** What every guarded history keeps about reviews. */
  ghost predicate ReviewsHold(db: Db) {
    && EarlierEnded(db.runs)
    && (forall r :: 0 <= r < |db.runs| ==> Promised(db, r))
    && (forall t: Id :: !Unvouched(db, t))
  }

  // ---- Tasks that a call does not touch -----------------------------------------------------------

  /** Nothing about reviews of task `t` changed. */
  ghost predicate Apart(db: Db, after: Db, t: Id) {
    && t < |db.tasks| && t < |after.tasks| && after.tasks[t] == db.tasks[t]
    && |db.runs| <= |after.runs| && |db.approvals| <= |after.approvals|
    && (forall i :: 0 <= i < |db.runs| ==>
          && after.runs[i].task == db.runs[i].task
          && (db.runs[i].task == t ==>
                && after.runs[i].status == db.runs[i].status
                && after.runs[i].details.handoff == db.runs[i].details.handoff))
    && (forall i :: |db.runs| <= i < |after.runs| ==> after.runs[i].task != t)
    && (forall a :: 0 <= a < |db.approvals| ==>
          && after.approvals[a].run == db.approvals[a].run
          && (OnTask(db.runs, t, db.approvals[a]) ==> after.approvals[a] == db.approvals[a]))
    && (forall a :: |db.approvals| <= a < |after.approvals| ==> !OnTask(after.runs, t, after.approvals[a]))
  }

  lemma ReviewsAlike(db: Db, after: Db, t: Id, r: Id)
    requires Apart(db, after, t) && r < |db.runs| && db.runs[r].task == t
    ensures AwaitsReview(db.approvals, r) <==> AwaitsReview(after.approvals, r)
  {
    if a :| 0 <= a < |db.approvals| && PendingReview(db.approvals[a], r) {
      assert PendingReview(after.approvals[a], r);
    }
    if a :| 0 <= a < |after.approvals| && PendingReview(after.approvals[a], r) {
      assert a < |db.approvals| && PendingReview(db.approvals[a], r);
    }
  }

  lemma CurrentAlike(db: Db, after: Db, t: Id, c: Id)
    requires Apart(db, after, t)
    ensures Current(db.runs, t, c) <==> Current(after.runs, t, c)
  {
  }

  /** What a call leaves alone neither slips nor loses its reviewer's approval. */
  lemma ApartKeeps(db: Db, after: Db, t: Id)
    requires Apart(db, after, t)
    ensures Slipped(after, t) ==> Slipped(db, t)
    ensures Unvouched(after, t) ==> Unvouched(db, t)
    ensures forall r :: 0 <= r < |db.runs| && db.runs[r].task == t && Promised(db, r) ==> Promised(after, r)
  {
    hide AwaitsReview, Apart, Current;
    forall c: Id ensures Current(db.runs, t, c) <==> Current(after.runs, t, c) {
      CurrentAlike(db, after, t, c);
    }
    forall r: Id | r < |db.runs| && db.runs[r].task == t
      ensures AwaitsReview(db.approvals, r) <==> AwaitsReview(after.approvals, r)
    {
      ReviewsAlike(db, after, t, r);
    }
    ApartRows(db, after, t);
    ApartVouches(db, after, t);
  }

  lemma ApartRows(db: Db, after: Db, t: Id)
    requires Apart(db, after, t)
    ensures t < |db.tasks| && t < |after.tasks| && after.tasks[t] == db.tasks[t] && |db.runs| <= |after.runs|
    ensures forall r :: 0 <= r < |db.runs| && db.runs[r].task == t ==>
              && after.runs[r].task == t && after.runs[r].status == db.runs[r].status
              && after.runs[r].details.handoff == db.runs[r].details.handoff
    ensures forall r: Id :: Current(after.runs, t, r) ==> r < |db.runs| && db.runs[r].task == t
  {
  }

  lemma ApartVouches(db: Db, after: Db, t: Id)
    requires Apart(db, after, t)
    ensures Vouched(db, t) ==> Vouched(after, t)
  {
    if a: Id :| Vouches(db, t, a) {
      assert Vouches(after, t, a);
    }
  }

  // ---- What each call leaves apart ----------------------------------------------------------------

  /** Rows were rewritten without touching anything a review depends on. */
  ghost predicate Unmoved(db: Db, after: Db) {
    && after.tasks == db.tasks && after.approvals == db.approvals && |after.runs| == |db.runs|
    && forall i :: 0 <= i < |db.runs| ==>
         && after.runs[i].task == db.runs[i].task && after.runs[i].status == db.runs[i].status
         && after.runs[i].details.handoff == db.runs[i].details.handoff
  }

  lemma ClaimUnmoved(db: Db, owner: string, duration: Time, limit: int, locked: set<Id>, now: Time)
    ensures Unmoved(db, ClaimRuns(db, owner, duration, limit, locked, now).db)
  {
    hide ClaimEach, ClaimQuery;
    if limit >= 1 {
      var ids := ClaimQuery(db.runs, locked, now, limit);
      ClaimQueryDistinct(db.runs, locked, now, limit, ids);
      ClaimEachShape(db, ids, owner, now, now + duration);
    }
  }

  lemma ColumnEditsUnmoved(cfg: Settings, db: Db, cmd: Command, now: Time)
    requires EditsColumns(cmd)
    ensures Unmoved(db, Apply(cfg, db, cmd, now).db)
  {
    hide ClaimRuns;
    match cmd
    case Claim(owner, duration, limit, locked) => ClaimUnmoved(db, owner, duration, limit, locked, now);
    case _ =>
  }

  lemma UnmovedApart(db: Db, after: Db, t: Id)
    requires Unmoved(db, after) && t < |db.tasks|
    ensures Apart(db, after, t)
  {
  }

  ghost predicate AllApart(db: Db, after: Db) {
    |db.runs| == |after.runs| && |db.tasks| == |after.tasks| && forall t: Id :: t < |db.tasks| ==> Apart(db, after, t)
  }

  /** Only task `t` was touched, and about it the review invariant holds again. */
  ghost predicate Settles(db: Db, after: Db, t: Id) {
    && t < |db.tasks| == |after.tasks|
    && (forall s: Id :: s < |after.tasks| && s != t ==> Apart(db, after, s))
    && (forall r: Id :: r < |after.runs| && after.runs[r].task == t ==> Promised(after, r))
    && !Unvouched(after, t)
  }

  /** A run keeps its promise if it keeps its hand-over and its pending review. */
  lemma PromiseKept(db: Db, after: Db, r: Id)
    requires r < |db.runs| && r < |after.runs| && Promised(db, r)
    requires Reviewed(after, after.runs[r].task) ==> Reviewed(db, db.runs[r].task)
    requires Active(after.runs[r].status) ==> Active(db.runs[r].status)
    requires after.runs[r].details.handoff == db.runs[r].details.handoff
    requires forall a :: 0 <= a < |db.approvals| && PendingReview(db.approvals[a], r) ==>
               a < |after.approvals| && PendingReview(after.approvals[a], r)
    ensures Promised(after, r)
  {
    if a :| 0 <= a < |db.approvals| && PendingReview(db.approvals[a], r) {
      assert PendingReview(after.approvals[a], r);
    }
  }

  // ---- Dispatches ---------------------------------------------------------------------------------

  lemma DispatchSettles(
    cfg: Settings, cat: Catalog, db: Db, task: Id, actor: string, key: Key, p: DispatchPayload, now: Time, step: Step)
    requires Inv(cfg, db) && ReviewsHold(db) && step == DispatchTask(cfg, cat, db, task, actor, key, p, now)
    ensures AllApart(db, step.db) || (Settles(db, step.db, task) && !Slipped(step.db, task))
    ensures EarlierEnded(step.db.runs)
  {
    hide DispatchTask, Inv;
    if Admission.Dispatched(step) {
      DispatchShape(cfg, cat, db, task, actor, key, p, now, step);
      var row := NewRun(db, task, key, p, now);
      RowsAct(cfg, db);
      NewRunSettles(db, step.db, task, row,
        if p.requiresApproval then AwaitingApproval else Records.Dispatched);
    } else {
      DispatchElse(cfg, cat, db, task, actor, key, p, now, step);
      if task < |db.tasks| && step.db == PutTaskStatus(db, task, Blocked) {
        RestatedSettles(db, step.db, task, Blocked);
      }
    }
  }

  lemma RowsAct(cfg: Settings, db: Db)
    requires Inv(cfg, db)
    ensures forall i :: 0 <= i < |db.runs| ==> Active(db.runs[i].status) || Terminal(db.runs[i].status)
    ensures forall i :: 0 <= i < |db.runs| ==> db.runs[i].task < |db.tasks|
    ensures forall a :: 0 <= a < |db.approvals| ==> db.approvals[a].run < |db.runs|
    ensures OneActive(db.runs)
  {
  }

  lemma NewRunSettles(db: Db, after: Db, task: Id, row: Run, status: Status)
    requires ReviewsHold(db) && task < |db.tasks| && row.task == task && RunAdded(db, after, row)
    requires !Has(db.runs, ActiveOf(task)) && row.details == NO_DETAILS && status != Completed
    requires forall i :: 0 <= i < |db.runs| ==> Active(db.runs[i].status) || Terminal(db.runs[i].status)
    requires forall a :: 0 <= a < |db.approvals| ==> db.approvals[a].run < |db.runs|
    requires after.tasks == PutTaskStatus(db, task, status).tasks
    ensures Settles(db, after, task) && !Slipped(after, task) && EarlierEnded(after.runs)
  {
    forall i, j | 0 <= i < j < |after.runs| && after.runs[i].task == after.runs[j].task
      ensures Terminal(after.runs[i].status)
    {
      if j == |db.runs| {
        assert !ActiveOf(task)(db.runs[i]);
      }
    }
    forall r: Id | r < |after.runs| && after.runs[r].task == task ensures Promised(after, r) {
      if r < |db.runs| {
        PromiseKept(db, after, r);
      }
    }
    forall s: Id | s < |after.tasks| && s != task ensures Apart(db, after, s) {
      AddedElsewhere(db, after, task, row, status, s);
    }
  }

  lemma AddedElsewhere(db: Db, after: Db, task: Id, row: Run, status: Status, s: Id)
    requires task < |db.tasks| && row.task == task && RunAdded(db, after, row) && s < |db.tasks| && s != task
    requires forall a :: 0 <= a < |db.approvals| ==> db.approvals[a].run < |db.runs|
    requires after.tasks == PutTaskStatus(db, task, status).tasks
    ensures Apart(db, after, s)
  {
  }

  lemma RestatedSettles(db: Db, after: Db, task: Id, status: Status)
    requires ReviewsHold(db) && task < |db.tasks| && after == PutTaskStatus(db, task, status) && status != Completed
    ensures Settles(db, after, task) && !Slipped(after, task)
  {
    forall r: Id | r < |after.runs| && after.runs[r].task == task ensures Promised(after, r) {
      PromiseKept(db, after, r);
    }
  }

  // ---- Moves --------------------------------------------------------------------------------------

  lemma MoveSettles(
    cfg: Settings, cat: Catalog, db: Db, run: Id, to: Status, actor: string, code: Option<string>,
    summary: Option<string>, now: Time, step: Step)
    requires Inv(cfg, db) && ReviewsHold(db)
    requires step == TransitionRun(cfg, cat, db, run, to, actor, code, summary, now)
    ensures AllApart(db, step.db) ||
            (run < |db.runs| && Settles(db, step.db, db.runs[run].task) && !Slipped(step.db, db.runs[run].task))
  {
    hide TransitionRun, Inv, MoveDone;
    MovesExactly(cfg, cat, db, run, to, actor, code, summary, now, step);
    if step.out.Ok? {
      RowsAct(cfg, db);
      MovedSettles(cfg, db, step.db, run, to, code, summary, now);
    }
  }

  lemma MovedSettles(
    cfg: Settings, db: Db, after: Db, run: Id, to: Status, code: Option<string>, summary: Option<string>, now: Time)
    requires ReviewsHold(db) && run < |db.runs| && db.runs[run].task < |db.tasks| && OneActive(db.runs)
    requires Active(db.runs[run].status) && (Active(to) || Terminal(to))
    requires MoveDone(cfg, db, after, run, to, code, summary, now)
    ensures Settles(db, after, db.runs[run].task) && !Slipped(after, db.runs[run].task)
  {
    hide Carries, AwaitsReview;
    var t := db.runs[run].task;
    assert Promised(db, run);
    forall r: Id | r < |after.runs| && after.runs[r].task == t ensures Promised(after, r) {
      PromiseKept(db, after, r);
    }
    forall c: Id | Current(after.runs, t, c) ensures c == run {
      assert !(c < run) && !(run < c);
    }
  }

  // ---- Hand-overs ---------------------------------------------------------------------------------

  lemma DeliverSettles(
    cfg: Settings, db: Db, task: Id, actor: string, key: string, handoff: Handoff, ttl: int, now: Time, step: Step)
    requires Inv(cfg, db) && ReviewsHold(db) && step == HandoffTask(db, task, actor, key, handoff, ttl, now)
    ensures AllApart(db, step.db) || (Settles(db, step.db, task) && !Slipped(step.db, task))
  {
    hide HandoffTask, Inv, Effects.HandedOver;
    RowsAct(cfg, db);
    if task < |db.tasks| && !Effects.Commented(db, key) && exists r: Id :: Effects.RunsOn(db.runs, task, r) {
      var run: Id :| Effects.RunsOn(db.runs, task, run);
      Effects.HandoverExactly(db, task, run, actor, key, handoff, ttl, now, step);
      if step.out.Ok? {
        HandedOverSettles(db, step.db, task, run, actor, key, handoff, ttl, now);
      }
    } else {
      Effects.HandoverElse(db, task, actor, key, handoff, ttl, now, step);
    }
  }

  lemma HandedOverSettles(
    db: Db, after: Db, task: Id, run: Id, actor: string, key: string, handoff: Handoff, ttl: int, now: Time)
    requires ReviewsHold(db) && task < |db.tasks| && Effects.RunsOn(db.runs, task, run) && OneActive(db.runs)
    requires Effects.HandedOver(db, after, task, run, actor, key, handoff, ttl, now)
    ensures Settles(db, after, task) && !Slipped(after, task)
  {
    forall r: Id | r < |after.runs| && after.runs[r].task == task ensures Promised(after, r) {
      if r == run {
        if handoff.outcome != "blocked" && Reviewed(db, task) {
          assert PendingReview(after.approvals[|db.approvals|], run);
        }
      } else {
        PromiseKept(db, after, r);
      }
    }
  }

  // ---- Cancellations and sweeps -------------------------------------------------------------------

  lemma CancelSettles(
    cfg: Settings, db: Db, task: Id, actor: string, key: string, reason: string, now: Time, step: Step)
    requires Inv(cfg, db) && ReviewsHold(db) && step == CancelTask(cfg, db, task, actor, key, reason, now)
    ensures AllApart(db, step.db) || (Settles(db, step.db, task) && !Slipped(step.db, task))
  {
    hide CancelTask, Inv, Effects.CalledOff;
    RowsAct(cfg, db);
    Effects.CancelExactly(cfg, db, task, actor, key, reason, now, step);
    if Effects.CancelProblem(db, task, key).None? {
      CalledOffSettles(cfg.project, db, step.db, task, actor, key, reason, now);
    }
  }

  lemma CalledOffSettles(
    project: string, db: Db, after: Db, task: Id, actor: string, key: string, reason: string, now: Time)
    requires ReviewsHold(db) && task < |db.tasks|
    requires forall a :: 0 <= a < |db.approvals| ==> db.approvals[a].run < |db.runs|
    requires Effects.CalledOff(project, db, after, task, actor, key, reason, now)
    ensures Settles(db, after, task) && !Slipped(after, task)
  {
    hide Effects.BookedNext;
    forall r: Id | r < |after.runs| && after.runs[r].task == task ensures Promised(after, r) {
      assert !Active(after.runs[r].status);
    }
    forall s: Id | s < |after.tasks| && s != task ensures Apart(db, after, s) {
      CalledOffElsewhere(project, db, after, task, actor, key, reason, now, s);
    }
  }

  lemma CalledOffElsewhere(
    project: string, db: Db, after: Db, task: Id, actor: string, key: string, reason: string, now: Time, s: Id)
    requires task < |db.tasks| && s < |db.tasks| && s != task
    requires Effects.CalledOff(project, db, after, task, actor, key, reason, now)
    ensures Apart(db, after, s)
  {
    hide Effects.BookedNext;
  }

  /** A task none of whose runs was late is left apart; the others are timed out. */
  lemma SweepSettles(cfg: Settings, cat: Catalog, db: Db, actor: string, now: Time, step: Step)
    requires Inv(cfg, db) && ReviewsHold(db) && step == ExpireDueRuns(cfg, cat, db, actor, now)
    ensures |step.db.runs| == |db.runs| && |step.db.tasks| == |db.tasks|
    ensures forall r :: 0 <= r < |db.runs| ==> step.db.runs[r].task == db.runs[r].task && Promised(step.db, r)
    ensures forall t: Id :: t < |db.tasks| ==>
              Apart(db, step.db, t) || (!Slipped(step.db, t) && !Unvouched(step.db, t))
  {
    hide ExpireDueRuns, Inv, Effects.TimedOutAll;
    var ids := Effects.SweepExactly(cfg, cat, db, actor, now, step);
    SweptRows(cfg.project, db, step.db, ids, now);
    forall r: Id | r < |db.runs| ensures Promised(step.db, r) {
      PromiseKept(db, step.db, r);
    }
    forall t: Id | t < |db.tasks|
      ensures Apart(db, step.db, t) || (!Slipped(step.db, t) && !Unvouched(step.db, t))
    {
      if !Effects.Hit(db.runs, ids, t) {
        NotSweptApart(cfg.project, db, step.db, ids, now, t);
      }
    }
  }

  lemma SweptRows(project: string, db: Db, after: Db, ids: seq<Id>, now: Time)
    requires Effects.TimedOutAll(project, db, after, ids, now)
    ensures |after.runs| == |db.runs| && |after.tasks| == |db.tasks| && after.approvals == db.approvals
    ensures forall r :: 0 <= r < |db.runs| ==>
              && after.runs[r].task == db.runs[r].task && after.runs[r].details == db.runs[r].details
              && (Active(after.runs[r].status) ==> Active(db.runs[r].status))
    ensures forall t: Id :: t < |db.tasks| && Effects.Hit(db.runs, ids, t) ==> after.tasks[t].status == TimedOut
    ensures forall t: Id :: t < |db.tasks| ==> after.tasks[t].payload == db.tasks[t].payload
  {
    hide Effects.EntryAt, Effects.Hit;
  }

  lemma NotSweptApart(project: string, db: Db, after: Db, ids: seq<Id>, now: Time, t: Id)
    requires Effects.TimedOutAll(project, db, after, ids, now) && t < |db.tasks| && !Effects.Hit(db.runs, ids, t)
    ensures Apart(db, after, t)
  {
    hide Effects.EntryAt;
  }

  // ---- Decisions ----------------------------------------------------------------------------------

  /** The call grants the completion approval `a` of its run. */
  predicate Grants(db: Db, e: Event, a: Id) {
    && e.cmd.Resolve? && e.cmd.decision == Approved && e.cmd.run < |db.runs| && db.runs[e.cmd.run].task < |db.tasks|
    && Effects.Newest(db.approvals, e.cmd.run, a)
    && db.approvals[a].action == "completion" && e.now < db.approvals[a].expiresAt
    && Effects.DecisionRefused(
         db, e.cmd.run, a, e.cmd.actor, e.cmd.name, e.cmd.decision, e.cmd.reason, e.now).None?
  }

  /** Apart from approval `a`, some approval of the hand-over of the current run waits. */
  ghost predicate AnotherWaits(db: Db, t: Id, a: Id) {
    exists b: Id :: b != a && WaitsOnCurrent(db, t, b)
  }

  predicate WaitsOnCurrent(db: Db, t: Id, b: Id) {
    && b < |db.approvals| && db.approvals[b].run < |db.runs| && Current(db.runs, t, db.approvals[b].run)
    && PendingReview(db.approvals[b], db.approvals[b].run)
    && db.runs[db.approvals[b].run].details.handoff.Some?
  }

  /** The completion of a reviewed task is approved while another approval of its current run's hand-over waits. */
  ghost predicate Rash(db: Db, e: Event) {
    exists a: Id ::
      && Grants(db, e, a) && Reviewed(db, db.runs[e.cmd.run].task)
      && AnotherWaits(db, db.runs[e.cmd.run].task, a)
  }

  lemma SlipsByWaiting(db: Db, t: Id)
    ensures Slipped(db, t) <==>
            Reviewed(db, t) && db.tasks[t].status == Completed && exists b: Id :: WaitsOnCurrent(db, t, b)
  {
    if Slipped(db, t) {
      var c: Id :| Current(db.runs, t, c) && db.runs[c].details.handoff.Some? && AwaitsReview(db.approvals, c);
      var b :| 0 <= b < |db.approvals| && PendingReview(db.approvals[b], c);
      assert WaitsOnCurrent(db, t, b);
    }
    if b: Id :| WaitsOnCurrent(db, t, b) {
      assert AwaitsReview(db.approvals, db.approvals[b].run);
    }
  }

  lemma GrantedSettles(db: Db, after: Db, run: Id, a: Id, actor: string)
    requires ReviewsHold(db) && run < |db.runs| && db.runs[run].task < |db.tasks| && a < |db.approvals|
    requires Terminal(db.runs[run].status) && db.approvals[a].run == run && db.approvals[a].action == "completion"
    requires Reviewed(db, db.runs[run].task) ==> db.tasks[db.runs[run].task].payload.reviewer == Some(actor)
    requires after.runs == db.runs && Effects.TaskRestated(db.tasks, after.tasks, db.runs[run].task, Completed)
    requires |after.approvals| == |db.approvals| && after.approvals == db.approvals[a := after.approvals[a]]
    requires after.approvals[a].run == run && after.approvals[a].action == "completion"
    requires after.approvals[a].verdict == Approved && after.approvals[a].decidedBy == Some(actor)
    ensures Settles(db, after, db.runs[run].task)
    ensures Slipped(after, db.runs[run].task) <==>
            Reviewed(db, db.runs[run].task) && AnotherWaits(db, db.runs[run].task, a)
  {
    var t := db.runs[run].task;
    forall r: Id | r < |after.runs| && after.runs[r].task == t ensures Promised(after, r) {
      if r != run {
        PromiseKept(db, after, r);
      }
    }
    if Reviewed(db, t) {
      assert Vouches(after, t, a);
    }
    SlipsByWaiting(after, t);
    forall b: Id ensures WaitsOnCurrent(after, t, b) <==> b != a && WaitsOnCurrent(db, t, b) {
    }
  }

  /** The task was restated as anything but completed, and one approval of its run was closed. */
  lemma ClosedSettles(db: Db, after: Db, run: Id, a: Id, status: Status)
    requires ReviewsHold(db) && run < |db.runs| && db.runs[run].task < |db.tasks| && a < |db.approvals|
    requires db.approvals[a].run == run && status != Completed
    requires db.approvals[a].action == "completion" ==> Terminal(db.runs[run].status)
    requires |after.runs| == |db.runs| && after.runs == db.runs[run := after.runs[run]]
    requires after.runs[run].task == db.runs[run].task && after.runs[run].details == db.runs[run].details
    requires Active(after.runs[run].status) ==> Active(db.runs[run].status)
    requires Effects.TaskRestated(db.tasks, after.tasks, db.runs[run].task, status)
    requires |after.approvals| == |db.approvals| && after.approvals == db.approvals[a := after.approvals[a]]
    requires after.approvals[a].run == run
    ensures Settles(db, after, db.runs[run].task) && !Slipped(after, db.runs[run].task)
  {
    var t := db.runs[run].task;
    forall r: Id | r < |after.runs| && after.runs[r].task == t ensures Promised(after, r) {
      if r != run {
        PromiseKept(db, after, r);
      } else if Active(after.runs[r].status) {
        PromiseKept(db, after, r);
      }
    }
  }

  /** Only one approval can be granted by a call. */
  lemma RashMeans(db: Db, e: Event, a: Id)
    requires e.cmd.Resolve? && Effects.Newest(db.approvals, e.cmd.run, a)
    ensures Rash(db, e) <==>
            && Grants(db, e, a) && Reviewed(db, db.runs[e.cmd.run].task)
            && AnotherWaits(db, db.runs[e.cmd.run].task, a)
  {
    forall b: Id | Grants(db, e, b) ensures b == a {
      assert !(a < b) && !(b < a);
    }
  }

  lemma NotRefusedMeans(
    db: Db, run: Id, a: Id, actor: string, key: string, decision: Verdict, reason: string, now: Time)
    requires run < |db.runs| && db.runs[run].task < |db.tasks| && a < |db.approvals|
    requires Effects.DecisionRefused(db, run, a, actor, key, decision, reason, now).None?
    ensures db.approvals[a].action == "completion" ==> db.runs[run].status == Completed
    ensures Reviewed(db, db.runs[run].task) ==> db.tasks[db.runs[run].task].payload.reviewer == Some(actor)
  {
  }

  /** The two ways a decision settles its task. */
  lemma DecidedSettles(project: string, db: Db, after: Db, e: Event, a: Id)
    requires ReviewsHold(db) && e.cmd.Resolve? && e.cmd.decision in {Approved, Rejected} && e.cmd.run < |db.runs|
    requires db.runs[e.cmd.run].task < |db.tasks| && Effects.Newest(db.approvals, e.cmd.run, a)
    requires Effects.DecisionRefused(
               db, e.cmd.run, a, e.cmd.actor, e.cmd.name, e.cmd.decision, e.cmd.reason, e.now).None?
    requires forall r :: 0 <= r < |db.runs| && r < |after.runs| && Terminal(db.runs[r].status) ==>
               !Active(after.runs[r].status)
    requires forall r :: 0 <= r < |db.runs| ==> Active(db.runs[r].status) || Terminal(db.runs[r].status)
    requires if db.approvals[a].expiresAt <= e.now then Effects.Lapsed(project, db, after, e.cmd.run, a, e.now)
             else Effects.Decided(project, db, after, e.cmd.run, a, e.cmd.actor, e.cmd.name, e.cmd.decision,
                                  e.cmd.reason, e.now)
    ensures Settles(db, after, db.runs[e.cmd.run].task)
    ensures Slipped(after, db.runs[e.cmd.run].task) <==> Rash(db, e)
  {
    hide Effects.DecisionRefused, Effects.BookedNext, Slipped, Settles, ReviewsHold, AnotherWaits;
    var run := e.cmd.run;
    RashMeans(db, e, a);
    NotRefusedMeans(db, run, a, e.cmd.actor, e.cmd.name, e.cmd.decision, e.cmd.reason, e.now);
    if Grants(db, e, a) {
      GrantedSettles(db, after, run, a, e.cmd.actor);
    } else {
      ClosedSettles(db, after, run, a,
        if db.approvals[a].action != "completion" && db.approvals[a].expiresAt > e.now && e.cmd.decision == Approved
        then Records.Dispatched else Failed);
    }
  }

  lemma SameIsApart(db: Db, after: Db)
    requires after.runs == db.runs && after.tasks == db.tasks && after.approvals == db.approvals
    ensures AllApart(db, after)
  {
  }

  lemma ResolveSettles(cfg: Settings, db: Db, e: Event, step: Step)
    requires Inv(cfg, db) && ReviewsHold(db) && e.cmd.Resolve? && e.cmd.decision in {Approved, Rejected}
    requires step == Apply(cfg, db, e.cmd, e.now)
    requires forall r :: 0 <= r < |db.runs| && r < |step.db.runs| && Terminal(db.runs[r].status) ==>
               !Active(step.db.runs[r].status)
    ensures (AllApart(db, step.db) && !Rash(db, e)) ||
            (&& e.cmd.run < |db.runs| && Settles(db, step.db, db.runs[e.cmd.run].task)
             && (Slipped(step.db, db.runs[e.cmd.run].task) <==> Rash(db, e)))
  {
    hide Inv, ResolveApproval, Effects.DecisionRefused, Slipped, Settles, AllApart, ReviewsHold;
    hide Effects.Decided, Effects.Lapsed, AnotherWaits;
    RowsAct(cfg, db);
    var run := e.cmd.run;
    if forall a :: 0 <= a < |db.approvals| ==> db.approvals[a].run != run {
      Effects.NothingToResolve(cfg, db, run, e.cmd.actor, e.cmd.name, e.cmd.decision, e.cmd.reason, e.now, step);
      SameIsApart(db, step.db);
    } else {
      var a := Effects.NewestOf(cfg, db, run);
      Effects.ResolveExactly(
        cfg, db, run, a, e.cmd.actor, e.cmd.name, e.cmd.decision, e.cmd.reason, e.now, step);
      RashMeans(db, e, a);
      var refused := Effects.DecisionRefused(
        db, run, a, e.cmd.actor, e.cmd.name, e.cmd.decision, e.cmd.reason, e.now);
      if refused.Some? || step.out == Refused("usage_ingest_conflict") {
        SameIsApart(db, step.db);
      } else {
        DecidedSettles(cfg.project, db, step.db, e, a);
      }
    }
  }

  // ---- Every call -----------------------------------------------------------------------------------

  lemma CreateApart(cfg: Settings, db: Db, actor: string, key: Key, payload: TaskPayload, step: Step)
    requires Inv(cfg, db) && ReviewsHold(db) && step == CreateTask(db, actor, key, payload)
    ensures ReviewsHold(step.db) && (NoneSlips(db) ==> NoneSlips(step.db))
  {
    hide Inv, CreateTask, Promised, Unvouched, Slipped;
    RowsAct(cfg, db);
    CreateAppends(db, actor, key, payload, step);
    forall t: Id | t < |db.tasks| ensures Apart(db, step.db, t) {
    }
    forall t: Id ensures !Unvouched(step.db, t) && (NoneSlips(db) ==> !Slipped(step.db, t)) {
      if t < |db.tasks| {
        ApartKeeps(db, step.db, t);
      } else {
        NoRunsNoReview(step.db, t);
      }
    }
    forall r: Id | r < |step.db.runs| ensures Promised(step.db, r) {
      ApartKeeps(db, step.db, db.runs[r].task);
    }
  }

  lemma NoRunsNoReview(db: Db, t: Id)
    requires forall i :: 0 <= i < |db.runs| ==> db.runs[i].task != t
    ensures !Slipped(db, t) && !Unvouched(db, t)
  {
  }

  lemma AllApartHolds(db: Db, after: Db)
    requires ReviewsHold(db) && AllApart(db, after)
    requires forall i :: 0 <= i < |db.runs| ==> db.runs[i].task < |db.tasks|
    ensures ReviewsHold(after) && (NoneSlips(db) ==> NoneSlips(after))
  {
    hide Promised, Unvouched, Slipped;
    forall t: Id ensures !Unvouched(after, t) && (NoneSlips(db) ==> !Slipped(after, t)) {
      if t < |db.tasks| {
        ApartKeeps(db, after, t);
      } else {
        NoTaskNoReview(after, t);
      }
    }
    forall r: Id | r < |after.runs| ensures Promised(after, r) {
      ApartKeeps(db, after, db.runs[r].task);
    }
    forall i, j | 0 <= i < j < |after.runs| && after.runs[i].task == after.runs[j].task
      ensures Terminal(after.runs[i].status)
    {
      ApartRows(db, after, db.runs[i].task);
      ApartRows(db, after, db.runs[j].task);
    }
  }

  lemma NoTaskNoReview(db: Db, t: Id)
    requires t >= |db.tasks|
    ensures !Slipped(db, t) && !Unvouched(db, t)
  {
  }

  /** One task was touched and settled: nothing slips unless it does. */
  lemma SettledHolds(db: Db, after: Db, t0: Id)
    requires ReviewsHold(db) && Settles(db, after, t0) && EarlierEnded(after.runs)
    requires forall i :: 0 <= i < |after.runs| ==> after.runs[i].task < |after.tasks|
    requires |db.runs| <= |after.runs|
    ensures ReviewsHold(after) && (NoneSlips(db) ==> (NoneSlips(after) <==> !Slipped(after, t0)))
  {
    hide Promised, Unvouched, Slipped;
    forall t: Id | t != t0 ensures !Unvouched(after, t) && (NoneSlips(db) ==> !Slipped(after, t)) {
      if t < |db.tasks| {
        ApartKeeps(db, after, t);
      } else {
        NoTaskNoReview(after, t);
      }
    }
    forall r: Id | r < |after.runs| ensures Promised(after, r) {
      if after.runs[r].task != t0 {
        ApartRows(db, after, after.runs[r].task);
        SettledRow(db, after, t0, r);
        ApartKeeps(db, after, after.runs[r].task);
      }
    }
  }

  lemma SettledRow(db: Db, after: Db, t0: Id, r: Id)
    requires Settles(db, after, t0) && r < |after.runs| && after.runs[r].task != t0
    requires after.runs[r].task < |after.tasks|
    ensures r < |db.runs| && db.runs[r].task == after.runs[r].task
  {
    hide Promised, Unvouched;
    assert Apart(db, after, after.runs[r].task);
  }

  lemma EndedStay(cfg: Settings, db: Db, e: Event, step: Step)
    requires Inv(cfg, db) && Inv(cfg, step.db) && step == Apply(cfg, db, e.cmd, e.now) && EarlierEnded(db.runs)
    ensures |db.runs| <= |step.db.runs| && (!e.cmd.Dispatch? ==> EarlierEnded(step.db.runs))
    ensures forall r :: 0 <= r < |db.runs| && Terminal(db.runs[r].status) ==> !Active(step.db.runs[r].status)
    ensures forall r :: 0 <= r < |step.db.runs| ==> step.db.runs[r].task < |step.db.tasks|
  {
    hide Inv, Apply;
    RowsAct(cfg, step.db);
    ApplyExtends(cfg, db, e.cmd, e.now, step);
    forall r: Id | r < |db.runs| && Terminal(db.runs[r].status) ensures Terminal(step.db.runs[r].status) {
      EndingStep(cfg, db, e.cmd, e.now, step.db, r);
    }
    if |step.db.runs| > |db.runs| {
      Gate.OnlyDispatchAppends(cfg, db, e.cmd, e.now, step.db);
    }
  }

  lemma SweepHolds(cfg: Settings, cat: Catalog, db: Db, actor: string, now: Time, step: Step)
    requires Inv(cfg, db) && ReviewsHold(db) && step == ExpireDueRuns(cfg, cat, db, actor, now)
    requires EarlierEnded(step.db.runs)
    ensures ReviewsHold(step.db) && (NoneSlips(db) ==> NoneSlips(step.db))
  {
    hide Inv, ExpireDueRuns, Promised, Unvouched, Slipped, Apart;
    SweepSettles(cfg, cat, db, actor, now, step);
    forall t: Id ensures !Unvouched(step.db, t) && (NoneSlips(db) ==> !Slipped(step.db, t)) {
      if t >= |db.tasks| {
        NoTaskNoReview(step.db, t);
      } else if Apart(db, step.db, t) {
        ApartKeeps(db, step.db, t);
      }
    }
  }

  lemma TaskCallHolds(cfg: Settings, db: Db, e: Event, step: Step)
    requires Inv(cfg, db) && Inv(cfg, step.db) && ReviewsHold(db) && step == Apply(cfg, db, e.cmd, e.now)
    requires e.cmd.Dispatch? || e.cmd.Move? || e.cmd.Deliver? || e.cmd.Cancel?
    ensures ReviewsHold(step.db) && (NoneSlips(db) ==> NoneSlips(step.db))
  {
    hide Inv, ReviewsHold, AllApart, Settles, Slipped, NoneSlips;
    hide TransitionRun, CancelTask, HandoffTask, DispatchTask;
    EndingsHold(cfg, db, e, step);
    RowsAct(cfg, db);
    match e.cmd
    case Dispatch(cat, task, actor, key, p) =>
      DispatchSettles(cfg, cat, db, task, actor, key, p, e.now, step);
      SettledOrApart(db, step.db, task);
    case Move(cat, run, to, actor, code, summary) =>
      MoveSettles(cfg, cat, db, run, to, actor, code, summary, e.now, step);
      SettledOrApart(db, step.db, if run < |db.runs| then db.runs[run].task else 0);
    case Deliver(task, actor, key, handoff, ttl) =>
      DeliverSettles(cfg, db, task, actor, key, handoff, ttl, e.now, step);
      SettledOrApart(db, step.db, task);
    case Cancel(task, actor, key, reason) =>
      CancelSettles(cfg, db, task, actor, key, reason, e.now, step);
      SettledOrApart(db, step.db, task);
  }

  lemma EndingsHold(cfg: Settings, db: Db, e: Event, step: Step)
    requires Inv(cfg, db) && Inv(cfg, step.db) && ReviewsHold(db) && step == Apply(cfg, db, e.cmd, e.now)
    ensures |db.runs| <= |step.db.runs| && EarlierEnded(step.db.runs)
    ensures forall r :: 0 <= r < |db.runs| && Terminal(db.runs[r].status) ==> !Active(step.db.runs[r].status)
    ensures forall r :: 0 <= r < |step.db.runs| ==> step.db.runs[r].task < |step.db.tasks|
  {
    hide Inv, Apply, EarlierEnded, Promised, Unvouched;
    EndedStay(cfg, db, e, step);
    if e.cmd.Dispatch? {
      DispatchEnds(cfg, e.cmd.cat, db, e.cmd.task, e.cmd.actor, e.cmd.key, e.cmd.request, e.now, step);
    }
  }

  lemma DispatchEnds(
    cfg: Settings, cat: Catalog, db: Db, task: Id, actor: string, key: Key, p: DispatchPayload, now: Time, step: Step)
    requires Inv(cfg, db) && ReviewsHold(db)
    requires step == Apply(cfg, db, Dispatch(cat, task, actor, key, p), now)
    ensures EarlierEnded(step.db.runs)
  {
    hide Inv, ReviewsHold, EarlierEnded, DispatchTask;
    DispatchSettles(cfg, cat, db, task, actor, key, p, now, step);
  }

  lemma SettledOrApart(db: Db, after: Db, t: Id)
    requires ReviewsHold(db) && EarlierEnded(after.runs) && |db.runs| <= |after.runs|
    requires AllApart(db, after) || (Settles(db, after, t) && !Slipped(after, t))
    requires forall r :: 0 <= r < |db.runs| ==> db.runs[r].task < |db.tasks|
    requires forall r :: 0 <= r < |after.runs| ==> after.runs[r].task < |after.tasks|
    ensures ReviewsHold(after) && (NoneSlips(db) ==> NoneSlips(after))
  {
    hide ReviewsHold, AllApart, Settles, Slipped, NoneSlips;
    if AllApart(db, after) {
      AllApartHolds(db, after);
    } else {
      SettledHolds(db, after, t);
    }
  }

  lemma ResolveHolds(cfg: Settings, db: Db, e: Event, step: Step)
    requires Inv(cfg, db) && Inv(cfg, step.db) && ReviewsHold(db) && step == Apply(cfg, db, e.cmd, e.now)
    requires e.cmd.Resolve? && e.cmd.decision in {Approved, Rejected}
    ensures ReviewsHold(step.db) && (NoneSlips(db) ==> (NoneSlips(step.db) <==> !Rash(db, e)))
  {
    hide Inv, ReviewsHold, AllApart, Settles, Slipped, NoneSlips, Rash, Apply;
    EndingsHold(cfg, db, e, step);
    RowsAct(cfg, db);
    ResolveSettles(cfg, db, e, step);
    if AllApart(db, step.db) && !Rash(db, e) {
      AllApartHolds(db, step.db);
    } else {
      SettledHolds(db, step.db, db.runs[e.cmd.run].task);
    }
  }

  /** Every guarded call keeps the review invariant, and it lets a task slip exactly if it is a rash decision. */
  lemma CallsHoldReviews(cfg: Settings, db: Db, e: Event, step: Step)
    requires Inv(cfg, db) && Safe(db, e) && ReviewsHold(db) && step == Apply(cfg, db, e.cmd, e.now)
    ensures ReviewsHold(step.db)
    ensures NoneSlips(db) ==> (NoneSlips(step.db) <==> !Rash(db, e))
  {
    hide Inv, ReviewsHold, NoneSlips, AllApart;
    StepKeepsInv(cfg, db, e, step);
    if e.cmd.Resolve? {
      ResolveHolds(cfg, db, e, step);
    } else if e.cmd.Create? {
      CreateApart(cfg, db, e.cmd.actor, e.cmd.key, e.cmd.payload, step);
    } else if e.cmd.Sweep? {
      EndingsHold(cfg, db, e, step);
      SweepHolds(cfg, e.cmd.cat, db, e.cmd.actor, e.now, step);
    } else if EditsColumns(e.cmd) {
      ColumnEditsUnmoved(cfg, db, e.cmd, e.now);
      UnmovedHolds(cfg, db, step.db);
    } else {
      TaskCallHolds(cfg, db, e, step);
    }
  }

  lemma UnmovedHolds(cfg: Settings, db: Db, after: Db)
    requires Inv(cfg, db) && ReviewsHold(db) && Unmoved(db, after)
    ensures ReviewsHold(after) && (NoneSlips(db) ==> NoneSlips(after))
  {
    hide Inv, ReviewsHold, NoneSlips;
    RowsAct(cfg, db);
    forall t: Id | t < |db.tasks| ensures Apart(db, after, t) {
      UnmovedApart(db, after, t);
    }
    AllApartHolds(db, after);
  }

  // ---- Histories --------------------------------------------------------------------------------------

  /** No decision of the history was rash where it was made. */
  ghost predicate Prudent(cfg: Settings, history: seq<Event>) {
    history == [] ||
    (&& Prudent(cfg, history[..|history| - 1])
     && !Rash(Replay(cfg, history[..|history| - 1]), history[|history| - 1]))
  }

  /** At no point of the history was a reviewed task completed while the review of its current run waited. */
  ghost predicate NeverSlips(cfg: Settings, history: seq<Event>) {
    NoneSlips(Replay(cfg, history)) && (history == [] || NeverSlips(cfg, history[..|history| - 1]))
  }

  lemma {:induction false} ReviewsAlwaysHold(cfg: Settings, history: seq<Event>)
    requires Guarded(cfg, history)
    ensures ReviewsHold(Replay(cfg, history))
  {
    if history == [] {
    } else {
      hide Inv, ReviewsHold, Apply;
      var init, last := history[..|history| - 1], history[|history| - 1];
      EveryHistoryIsSafe(cfg, init);
      ReviewsAlwaysHold(cfg, init);
      CallsHoldReviews(cfg, Replay(cfg, init), last, Apply(cfg, Replay(cfg, init), last.cmd, last.now));
    }
  }

  /**
    In a guarded history no reviewed task is ever completed while a completion approval of its current run's
    hand-over is pending, if and only if no completion was approved while another such approval waited.
   */
  lemma {:induction false} ReviewsAreNotSkippedExactly(cfg: Settings, history: seq<Event>)
    requires Guarded(cfg, history)
    ensures NeverSlips(cfg, history) <==> Prudent(cfg, history)
  {
    if history == [] {
      assert NoneSlips(EMPTY);
    } else {
      hide Inv, ReviewsHold, NoneSlips, Apply, Rash;
      var init, last := history[..|history| - 1], history[|history| - 1];
      EveryHistoryIsSafe(cfg, init);
      ReviewsAlwaysHold(cfg, init);
      ReviewsAreNotSkippedExactly(cfg, init);
      CallsHoldReviews(cfg, Replay(cfg, init), last, Apply(cfg, Replay(cfg, init), last.cmd, last.now));
      if NeverSlips(cfg, init) {
        NeverIsNow(cfg, init);
      }
    }
  }

  lemma NeverIsNow(cfg: Settings, history: seq<Event>)
    requires NeverSlips(cfg, history)
    ensures NoneSlips(Replay(cfg, history))
  {
  }

  /**
    In every guarded history a reviewed task that is completed although its current run was delivered has the
    approval of its reviewer for the completion of one of its runs.
   */
  lemma DeliveriesAreReviewed(cfg: Settings, history: seq<Event>, db: Db, t: Id, c: Id) returns (a: Id)
    requires Guarded(cfg, history) && db == Replay(cfg, history)
    requires t < |db.tasks| && db.tasks[t].payload.independentReview && db.tasks[t].status == Completed
    requires Current(db.runs, t, c) && Delivered(db.runs[c])
    ensures a < |db.approvals| && db.approvals[a].run < |db.runs| && db.runs[db.approvals[a].run].task == t
    ensures db.approvals[a].action == "completion" && db.approvals[a].verdict == Approved
    ensures db.approvals[a].decidedBy.Some? && db.approvals[a].decidedBy == db.tasks[t].payload.reviewer
    ensures db.approvals[a].decidedBy.value != db.runs[db.approvals[a].run].worker
  {
    hide Guarded, Replay;
    ReviewsAlwaysHold(cfg, history);
    assert !Unvouched(db, t);
    a :| Vouches(db, t, a);
    DecidersAreEntitled(cfg, history, db, a);
  }
}
