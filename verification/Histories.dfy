/** Whole histories of service calls: what holds after every one of them. */
module Histories {
  import opened Tables
  import opened Records
  import opened Controls
  import opened Lifecycle
  import opened Invariants
  import opened Preservation
  import opened Admission
  import opened Closing
  import opened Approvals

  /** A committed service call and its time. */
  datatype Event = At(cmd: Command, now: Time)

  function Replay(cfg: Settings, history: seq<Event>): Db {
    if history == [] then EMPTY
    else
      var last := history[|history| - 1];
      Apply(cfg, Replay(cfg, history[..|history| - 1]), last.cmd, last.now).db
  }

  /** Decisions are approvals or rejections, and none of them is unsafe where it is made. */
  predicate Safe(db: Db, e: Event) {
    e.cmd.Resolve? ==>
      && e.cmd.decision in {Approved, Rejected}
      && !Unsafe(db, e.cmd.run, e.cmd.actor, e.cmd.name, e.cmd.decision, e.now)
  }

  predicate Guarded(cfg: Settings, history: seq<Event>) {
    history == [] ||
    (&& Guarded(cfg, history[..|history| - 1])
     && Safe(Replay(cfg, history[..|history| - 1]), history[|history| - 1]))
  }

  /** Calls that edit only lease, schedule and report columns, or circuit breakers. */
  predicate EditsColumns(cmd: Command) {
    cmd.Claim? || cmd.Beat? || cmd.Drop? || cmd.Note? || cmd.ResetBreaker?
  }

  lemma ColumnEditsAreQuiet(cfg: Settings, db: Db, cmd: Command, now: Time)
    requires EditsColumns(cmd)
    ensures Quiet(db, Apply(cfg, db, cmd, now).db)
  {
    match cmd
    case Claim(owner, duration, limit, locked) => ClaimIsQuiet(db, owner, duration, limit, locked, now);
    case Beat(run, owner, duration) => HeartbeatIsQuiet(db, run, owner, duration, now);
    case Drop(run, owner, next) => ReleaseIsQuiet(db, run, owner, next, now);
    case Note(run, report) => ObserveIsQuiet(db, run, report);
    case ResetBreaker(worker, profile, actor) =>
  }

  /** Every service call keeps the invariant and leaves cancelled tasks alone. */
  lemma StepKeepsInv(cfg: Settings, db: Db, e: Event, step: Step)
    requires Inv(cfg, db) && Safe(db, e) && step == Apply(cfg, db, e.cmd, e.now)
    ensures Inv(cfg, step.db) && KeepsCancelled(db, step.db)
  {
    if EditsColumns(e.cmd) {
      ColumnEditsAreQuiet(cfg, db, e.cmd, e.now);
      QuietKeepsInv(cfg, db, step.db);
    } else if e.cmd.Create? || e.cmd.Deliver? || e.cmd.Cancel? {
      TaskStepKeepsInv(cfg, db, e.cmd, e.now, step);
    } else if e.cmd.Resolve? {
      ResolveKeepsInvExactly(
        cfg, db, e.cmd.run, e.cmd.actor, e.cmd.name, e.cmd.decision, e.cmd.reason, e.now, step.db);
    } else {
      RunStepKeepsCancelled(cfg, db, e.cmd, e.now, step);
    }
  }

  lemma TaskStepKeepsInv(cfg: Settings, db: Db, cmd: Command, now: Time, step: Step)
    requires Inv(cfg, db) && (cmd.Create? || cmd.Deliver? || cmd.Cancel?) && step == Apply(cfg, db, cmd, now)
    ensures Inv(cfg, step.db) && KeepsCancelled(db, step.db)
  {
    if cmd.Create? {
      CreateKeepsInv(cfg, db, cmd.actor, cmd.key, cmd.payload, step);
    } else if cmd.Deliver? {
      HandoffKeepsInv(cfg, db, cmd.task, cmd.actor, cmd.name, cmd.handoff, cmd.ttlSeconds, now, step);
    } else {
      CancelKeepsInv(cfg, db, cmd.task, cmd.actor, cmd.name, cmd.reason, now, step);
    }
  }

  lemma RunStepKeepsCancelled(cfg: Settings, db: Db, cmd: Command, now: Time, step: Step)
    requires Inv(cfg, db) && (cmd.Dispatch? || cmd.Move? || cmd.Sweep?) && step == Apply(cfg, db, cmd, now)
    ensures Inv(cfg, step.db) && KeepsCancelled(db, step.db)
  {
    if cmd.Dispatch? {
      DispatchKeepsInv(cfg, cmd.cat, db, cmd.task, cmd.actor, cmd.key, cmd.request, now, step);
    } else if cmd.Move? {
      TransitionKeepsInv(cfg, cmd.cat, db, cmd.run, cmd.to, cmd.actor, cmd.code, cmd.summary, now, step);
    } else {
      SweepKeepsInv(cfg, cmd.cat, db, cmd.actor, now, step);
    }
  }

  /** Safety over whole runs: every guarded history ends in a state that satisfies the invariant. */
  lemma {:induction false} EveryHistoryIsSafe(cfg: Settings, history: seq<Event>)
    requires Guarded(cfg, history)
    ensures Inv(cfg, Replay(cfg, history))
  {
    if history == [] {
      EmptyInv(cfg);
    } else {
      var init, last := history[..|history| - 1], history[|history| - 1];
      EveryHistoryIsSafe(cfg, init);
      var before := Replay(cfg, init);
      StepKeepsInv(cfg, before, last, Apply(cfg, before, last.cmd, last.now));
    }
  }

  function Attempt(task: Id, n: int): Run -> bool {
    (r: Run) => r.task == task && r.attempt == n
  }

  /** The caps of the settings bound every reachable state, whatever budgets were in force at each step. */
  lemma CapacityHolds(cfg: Settings, history: seq<Event>, db: Db, task: Id, parent: Id)
    requires Guarded(cfg, history) && db == Replay(cfg, history)
    ensures Count(db.runs, IsActive()) <= Max(1, cfg.maxConcurrentRuns)
    ensures Count(db.runs, ActiveChildOf(db.tasks, parent)) <= Max(1, cfg.maxFanOut)
    ensures Count(db.runs, OfTask(task)) <= Max(0, cfg.maxRetries + 1)
    ensures Count(db.runs, ActiveOf(task)) <= 1
    ensures forall n :: 1 <= n <= Count(db.runs, OfTask(task)) ==> Has(db.runs, Attempt(task, n))
    ensures forall i, j :: 0 <= i < j < |db.runs| && db.runs[i].task == db.runs[j].task ==>
              db.runs[i].attempt < db.runs[j].attempt
  {
    EveryHistoryIsSafe(cfg, history);
    InvBoundsCapacity(cfg, db, task, parent);
  }

  lemma InvBoundsCapacity(cfg: Settings, db: Db, task: Id, parent: Id)
    requires Numbered(db.runs) && OneActive(db.runs) && WithinCaps(cfg, db.tasks, db.runs)
    ensures Count(db.runs, IsActive()) <= Max(1, cfg.maxConcurrentRuns)
    ensures Count(db.runs, ActiveChildOf(db.tasks, parent)) <= Max(1, cfg.maxFanOut)
    ensures Count(db.runs, OfTask(task)) <= Max(0, cfg.maxRetries + 1)
    ensures Count(db.runs, ActiveOf(task)) <= 1
    ensures forall n :: 1 <= n <= Count(db.runs, OfTask(task)) ==> Has(db.runs, Attempt(task, n))
    ensures forall i, j :: 0 <= i < j < |db.runs| && db.runs[i].task == db.runs[j].task ==>
              db.runs[i].attempt < db.runs[j].attempt
  {
    OneActiveCounts(db.runs, task);
    forall n | 1 <= n <= Count(db.runs, OfTask(task)) ensures Has(db.runs, Attempt(task, n)) {
      AttemptExists(db.runs, task, n);
    }
    forall i, j | 0 <= i < j < |db.runs| && db.runs[i].task == db.runs[j].task
      ensures db.runs[i].attempt < db.runs[j].attempt
    {
      AttemptsIncrease(db.runs, i, j);
    }
  }

  lemma AttemptsIncrease(runs: seq<Run>, i: Id, j: Id)
    requires i < j < |runs| && runs[i].task == runs[j].task
    requires runs[i].attempt == Count(runs[..i + 1], OfTask(runs[i].task))
    requires runs[j].attempt == Count(runs[..j + 1], OfTask(runs[j].task))
    ensures runs[i].attempt < runs[j].attempt
  {
    var p := OfTask(runs[j].task);
    assert runs[..j + 1] == runs[..j] + [runs[j]];
    CountAppend(runs[..j], runs[j], p);
    assert runs[..j][..i + 1] == runs[..i + 1];
    CountPrefix(runs[..j], i + 1, p);
  }

  lemma {:induction false} OneActiveCounts(runs: seq<Run>, task: Id)
    requires forall i, j :: 0 <= i < j < |runs| && runs[i].task == runs[j].task && Active(runs[i].status) ==>
               !Active(runs[j].status)
    ensures Count(runs, ActiveOf(task)) <= 1
  {
    if runs != [] {
      var last := |runs| - 1;
      OneActiveCounts(runs[..last], task);
      if ActiveOf(task)(runs[last]) {
        CountZero(runs[..last], ActiveOf(task));
      }
    }
  }

  lemma {:induction false} AttemptExists(runs: seq<Run>, task: Id, n: nat)
    requires Numbered(runs) && 1 <= n <= Count(runs, OfTask(task))
    ensures Has(runs, Attempt(task, n))
  {
    var last := |runs| - 1;
    if n <= Count(runs[..last], OfTask(task)) {
      forall k | 0 <= k < last
        ensures runs[..last][k].attempt == Count(runs[..last][..k + 1], OfTask(runs[..last][k].task))
      {
        assert runs[..last][..k + 1] == runs[..k + 1];
      }
      AttemptExists(runs[..last], task, n);
      var i :| 0 <= i < last && Attempt(task, n)(runs[..last][i]);
      assert Attempt(task, n)(runs[i]);
    } else {
      assert runs[..last + 1] == runs;
      assert Attempt(task, n)(runs[last]);
    }
  }

  /** The ledger is a bijection onto the ended runs. */
  lemma LedgerMatchesEndedRuns(cfg: Settings, history: seq<Event>, db: Db, run: Id)
    requires Guarded(cfg, history) && db == Replay(cfg, history) && run < |db.runs|
    ensures Terminal(db.runs[run].status) <==> exists e :: 0 <= e < |db.ledger| && db.ledger[e].run == run
    ensures forall d, e :: 0 <= d < e < |db.ledger| ==> db.ledger[d].run != db.ledger[e].run
    ensures forall e :: 0 <= e < |db.ledger| && db.ledger[e].run == run ==>
              db.ledger[e].outcome == db.runs[run].status && db.ledger[e].retryNumber == db.runs[run].attempt - 1
  {
    EveryHistoryIsSafe(cfg, history);
    BookedIsBijection(db.runs, db.ledger, run);
  }

  lemma BookedIsBijection(runs: seq<Run>, ledger: seq<LedgerEntry>, run: Id)
    requires Booked(runs, ledger) && run < |runs|
    ensures Terminal(runs[run].status) <==> exists e :: 0 <= e < |ledger| && ledger[e].run == run
    ensures forall d, e :: 0 <= d < e < |ledger| ==> ledger[d].run != ledger[e].run
    ensures forall e :: 0 <= e < |ledger| && ledger[e].run == run ==>
              ledger[e].outcome == runs[run].status && ledger[e].retryNumber == runs[run].attempt - 1
  {
    CountZero(ledger, ForRun(run));
    if i :| 0 <= i < |ledger| && ForRun(run)(ledger[i]) {
      assert ledger[i].run == run;
    }
    if e :| 0 <= e < |ledger| && ledger[e].run == run {
      assert ForRun(run)(ledger[e]);
    }
    forall d, e | 0 <= d < e < |ledger| ensures ledger[d].run != ledger[e].run {
      EntriesDistinct(ledger, d, e);
    }
  }

  lemma EntriesDistinct(ledger: seq<LedgerEntry>, d: Id, e: Id)
    requires d < e < |ledger| && Count(ledger, ForRun(ledger[e].run)) <= 1
    ensures ledger[d].run != ledger[e].run
  {
    var p := ForRun(ledger[e].run);
    assert ledger[..e + 1] == ledger[..e] + [ledger[e]];
    CountAppend(ledger[..e], ledger[e], p);
    CountPrefix(ledger, e + 1, p);
    CountZero(ledger[..e], p);
    assert ledger[..e][d] == ledger[d];
  }

  // ---- Cancellation is final ------------------------------------------------------------------

  lemma {:induction false} ReplaySplit(cfg: Settings, past: seq<Event>, future: seq<Event>)
    requires future != []
    ensures var init, last := future[..|future| - 1], future[|future| - 1];
            && (past + future)[..|past + future| - 1] == past + init
            && Replay(cfg, past + future) == Apply(cfg, Replay(cfg, past + init), last.cmd, last.now).db
  {
    assert (past + future)[..|past + future| - 1] == past + future[..|future| - 1];
  }

  /** Once a task is cancelled nothing that follows restates it, runs it or approves anything on it. */
  lemma {:induction false} CancellationIsFinal(cfg: Settings, past: seq<Event>, future: seq<Event>, task: Id)
    requires Guarded(cfg, past + future) && Guarded(cfg, past)
    requires task < |Replay(cfg, past).tasks| && Replay(cfg, past).tasks[task].cancelKey.Some?
    ensures Frozen(Replay(cfg, past), Replay(cfg, past + future), task)
    ensures Sealed(Replay(cfg, past + future), task)
  {
    EveryHistoryIsSafe(cfg, past);
    if future == [] {
      assert past + future == past;
    } else {
      var init := future[..|future| - 1];
      ReplaySplit(cfg, past, future);
      CancellationIsFinal(cfg, past, init, task);
      EveryHistoryIsSafe(cfg, past + init);
      var before, after := Replay(cfg, past + init), Replay(cfg, past + future);
      var last := future[|future| - 1];
      StepKeepsInv(cfg, before, last, Apply(cfg, before, last.cmd, last.now));
      FrozenTransitive(Replay(cfg, past), before, after, task);
    }
  }
}
