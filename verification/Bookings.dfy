/** What the ledger says of a run is what the run's row said when it ended. */
module Bookings {
  import opened Tables
  import opened Records
  import opened Lifecycle
  import opened Invariants
  import opened Admission
  import opened Histories
  import opened Endings
  import opened Moves
  import Effects

  /** Entry `e` is for a run of an existing task, and says what the rows say. */
  ghost predicate TrueToRows(project: string, db: Db, e: Id) {
    && e < |db.ledger| && db.ledger[e].run < |db.runs| && db.runs[db.ledger[e].run].task < |db.tasks|
    && Carries(project, db.tasks[db.runs[db.ledger[e].run].task], db.ledger[e].run, db.runs[db.ledger[e].run],
               db.ledger[e])
  }

  ghost predicate NewOnesTrue(project: string, db: Db, after: Db) {
    |db.ledger| <= |after.ledger| && forall e: Id :: |db.ledger| <= e < |after.ledger| ==> TrueToRows(project, after, e)
  }

  lemma MoveBooks(
    cfg: Settings, cat: Catalog, db: Db, run: Id, to: Status, actor: string, code: Option<string>,
    summary: Option<string>, now: Time, step: Step)
    requires Inv(cfg, db) && step == TransitionRun(cfg, cat, db, run, to, actor, code, summary, now)
    ensures NewOnesTrue(cfg.project, db, step.db)
  {
    hide Inv, TransitionRun, Carries;
    MovesExactly(cfg, cat, db, run, to, actor, code, summary, now, step);
    if step.out.Ok? && |db.ledger| < |step.db.ledger| {
      var task := db.runs[run].task;
      CarriesAlike(
        cfg.project, db.tasks[task], step.db.tasks[task], run, step.db.runs[run], step.db.ledger[|db.ledger|]);
    }
  }

  lemma BookedNextIsTrue(project: string, db: Db, after: Db, run: Id)
    requires Effects.BookedNext(project, db, after, run)
    ensures NewOnesTrue(project, db, after)
  {
    hide Carries;
    assert after.ledger[|db.ledger|].run == run by { RunCarried(project, after, run, |db.ledger|); }
  }

  lemma RunCarried(project: string, db: Db, run: Id, e: Id)
    requires run < |db.runs| && db.runs[run].task < |db.tasks| && e < |db.ledger|
    requires Carries(project, db.tasks[db.runs[run].task], run, db.runs[run], db.ledger[e])
    ensures db.ledger[e].run == run
  {
  }

  lemma CancelBooks(
    cfg: Settings, db: Db, task: Id, actor: string, key: string, reason: string, now: Time, step: Step)
    requires Inv(cfg, db) && step == CancelTask(cfg, db, task, actor, key, reason, now)
    ensures NewOnesTrue(cfg.project, db, step.db)
  {
    hide Inv, CancelTask, Effects.BookedNext, TrueToRows;
    Effects.CancelExactly(cfg, db, task, actor, key, reason, now, step);
    if step.db.ledger != db.ledger {
      var run: Id :| Effects.ActsOn(db.runs, task, run);
      BookedNextIsTrue(cfg.project, db, step.db, run);
    }
  }

  lemma ResolveBooks(
    cfg: Settings, db: Db, run: Id, actor: string, key: string, decision: Verdict, reason: string, now: Time,
    step: Step)
    requires Inv(cfg, db) && step == ResolveApproval(cfg, db, run, actor, key, decision, reason, now)
    ensures NewOnesTrue(cfg.project, db, step.db)
  {
    hide Inv, ResolveApproval, Effects.BookedNext, TrueToRows, Effects.DecisionRefused;
    if forall a :: 0 <= a < |db.approvals| ==> db.approvals[a].run != run {
      Effects.NothingToResolve(cfg, db, run, actor, key, decision, reason, now, step);
    } else {
      var a := Effects.NewestOf(cfg, db, run);
      Effects.ResolveExactly(cfg, db, run, a, actor, key, decision, reason, now, step);
      if step.db.ledger != db.ledger {
        BookedNextIsTrue(cfg.project, db, step.db, run);
      }
    }
  }

  lemma SweepBooks(cfg: Settings, cat: Catalog, db: Db, actor: string, now: Time, step: Step)
    requires Inv(cfg, db) && step == ExpireDueRuns(cfg, cat, db, actor, now)
    ensures NewOnesTrue(cfg.project, db, step.db)
  {
    hide Inv, ExpireDueRuns, Carries;
    var ids := Effects.SweepExactly(cfg, cat, db, actor, now, step);
    forall e: Id | |db.ledger| <= e < |step.db.ledger| ensures TrueToRows(cfg.project, step.db, e) {
      var run := ids[e - |db.ledger|];
      assert Effects.EntryAt(cfg.project, db, step.db, ids[e - |db.ledger|], |db.ledger| + (e - |db.ledger|));
      var task := db.runs[run].task;
      CarriesAlike(cfg.project, db.tasks[task], step.db.tasks[task], run, step.db.runs[run], step.db.ledger[e]);
      RunCarried(cfg.project, step.db, run, e);
    }
  }

  lemma OtherCallsBookNothing(cfg: Settings, db: Db, cmd: Command, now: Time, after: Db)
    requires !cmd.Move? && !cmd.Cancel? && !cmd.Resolve? && !cmd.Sweep? && after == Apply(cfg, db, cmd, now).db
    ensures after.ledger == db.ledger
  {
    hide HandoffTask, DispatchTask, ClaimEach, ClaimQuery;
    match cmd
    case Claim(owner, duration, limit, locked) =>
      ClaimGrows(db, ClaimQuery(db.runs, locked, now, Max(limit, 0)), owner, now, now + duration);
    case Dispatch(cat, task, actor, key, p) =>
      var step := Apply(cfg, db, cmd, now);
      if Admission.Dispatched(step) {
        DispatchShape(cfg, cat, db, task, actor, key, p, now, step);
      } else {
        DispatchElse(cfg, cat, db, task, actor, key, p, now, step);
      }
    case Deliver(task, actor, key, handoff, ttl) =>
      DeliverBooksNothing(db, task, actor, key, handoff, ttl, now);
    case _ =>
  }

  lemma DeliverBooksNothing(db: Db, task: Id, actor: string, key: string, handoff: Handoff, ttl: int, now: Time)
    ensures HandoffTask(db, task, actor, key, handoff, ttl, now).db.ledger == db.ledger
  {
  }

  /** Whatever call files an entry, the entry says what the rows of its run and task say after that call. */
  lemma CallsBookTruly(cfg: Settings, db: Db, cmd: Command, now: Time, step: Step)
    requires Inv(cfg, db) && step == Apply(cfg, db, cmd, now)
    ensures NewOnesTrue(cfg.project, db, step.db)
  {
    hide Inv, NewOnesTrue, TransitionRun, CancelTask, ResolveApproval, ExpireDueRuns;
    match cmd
    case Move(cat, run, to, actor, code, summary) =>
      MoveBooks(cfg, cat, db, run, to, actor, code, summary, now, step);
    case Cancel(task, actor, key, reason) => CancelBooks(cfg, db, task, actor, key, reason, now, step);
    case Resolve(run, actor, key, decision, reason) =>
      ResolveBooks(cfg, db, run, actor, key, decision, reason, now, step);
    case Sweep(cat, actor) => SweepBooks(cfg, cat, db, actor, now, step);
    case _ =>
      OtherCallsBookNothing(cfg, db, cmd, now, step.db);
      NothingNew(cfg.project, db, step.db);
  }

  lemma NothingNew(project: string, db: Db, after: Db)
    requires after.ledger == db.ledger
    ensures NewOnesTrue(project, db, after)
  {
  }

  /**
    Every entry of the ledger was filed by some call of the history, said then what the rows of its run and task
    said after that call, and has not been touched since.
   */
  lemma {:induction false} EntriesWereTrue(cfg: Settings, history: seq<Event>, e: Id) returns (k: nat)
    requires Guarded(cfg, history) && e < |Replay(cfg, history).ledger|
    ensures 0 < k <= |history|
    ensures |Replay(cfg, history[..k - 1]).ledger| <= e && TrueToRows(cfg.project, Replay(cfg, history[..k]), e)
    ensures Replay(cfg, history).ledger[e] == Replay(cfg, history[..k]).ledger[e]
  {
    hide Inv, Apply, TrueToRows;
    if history == [] {
      assert false;
    } else {
      var init, last := history[..|history| - 1], history[|history| - 1];
      var before := Replay(cfg, init);
      EveryHistoryIsSafe(cfg, init);
      if e < |before.ledger| {
        LedgerIsAppendOnly(cfg, before, last.cmd, last.now, Replay(cfg, history));
        k := EntriesWereTrue(cfg, init, e);
        assert init[..k] == history[..k] && init[..k - 1] == history[..k - 1];
      } else {
        k := |history|;
        assert history[..k] == history;
        CallsBookTruly(cfg, before, last.cmd, last.now, Apply(cfg, before, last.cmd, last.now));
      }
    }
  }
}
