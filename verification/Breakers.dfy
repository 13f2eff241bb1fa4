/** Over any history, the breaker of a worker and profile is the fold of the verdicts given on it. */
module Breakers {
  import opened Tables
  import opened Records
  import opened Limits
  import opened Controls
  import opened Lifecycle
  import opened Invariants
  import opened Preservation
  import opened Closing
  import opened Approvals
  import opened Histories
  import C = Circuits

  type At = (string, string)

  function BreakerAt(circuits: map<At, Circuit>, at: At): Circuit {
    if at in circuits then circuits[at] else FRESH_CIRCUIT
  }

  // ---- Verdicts -------------------------------------------------------------------------------

  /** The breaker of the worker and of the profile the run had in effect, and how its row reads after the verdict. */
  predicate Ruled(was: Circuit, row: Run, limits: ControlLimits, now: Time, b: Circuit) {
    if row.status == Completed then b == Circuit(false, 0, None, None, None)
    else if row.status == Failed || row.status == TimedOut then
      && b.failures == (if row.errorCode == was.lastError then was.failures + 1 else 1)
      && (row.errorCode == was.lastError ==> b.lastError == was.lastError)
      && (row.errorCode != was.lastError && row.errorCode.Some? && row.errorCode.value != "" ==>
            b.lastError == row.errorCode)
      && if b.failures >= limits.circuitThreshold then
           && b.open && b.openedAt == Some(now) && b.resetAt == Some(now + Seconds(limits.circuitCooldownSeconds))
         else b.open == was.open && b.openedAt == was.openedAt && b.resetAt == was.resetAt
    else b == was
  }

  /** A verdict changes the one breaker, and its audit says so exactly if the failure reached the threshold. */
  lemma VerdictsExactly(cfg: Settings, cat: Catalog, db: Db, run: Id, actor: string, now: Time, after: Db)
    requires run < |db.runs| && db.runs[run].task < |db.tasks|
    requires after == RecordOutcome(cfg, cat, db, run, actor, now)
    ensures var row := db.runs[run];
            var profile := OrElse(row.effectiveProfile, row.profile);
            var at, task := (row.worker, profile), db.tasks[row.task];
            var category := OrElse(task.payload.workflowRef, "uncategorized");
            var who := Scope(row.worker, profile, category, task.payload.budget);
            var limits := LimitsFor(cfg, cat.budgets, who);
            var b := BreakerAt(after.circuits, at);
            && Ruled(BreakerAt(db.circuits, at), row, limits, now, b)
            && (forall other: At :: other != at ==> BreakerAt(after.circuits, other) == BreakerAt(db.circuits, other))
            && after == db.(circuits := after.circuits, audit := after.audit)
            && after.audit == db.audit +
                 (if row.status in {Failed, TimedOut} && b.failures >= limits.circuitThreshold
                  then [Audit(actor, "circuit.opened", CircuitRow(row.worker, profile))] else [])
  {
    hide LimitsFor;
  }

  predicate Judges(to: Status) {
    to in {Completed, Failed, TimedOut}
  }

  /** The verdict that a run's row, as it finished, gives on the breaker at `at`, if that is its own. */
  function VerdictOn(cfg: Settings, cat: Catalog, tasks: seq<Task>, row: Run, now: Time, at: At): seq<C.Mark>
    requires row.task < |tasks|
  {
    if (row.worker, ProfileOf(row)) != at then []
    else
      [C.Finished(row, LimitsFor(cfg, cat.budgets, ScopeOf(tasks[row.task], row.worker, ProfileOf(row))), now)]
  }

  /** An accepted move gives a verdict if it ends the run other than by cancelling it. */
  function MoveMarks(
    cfg: Settings, cat: Catalog, db: Db, run: Id, to: Status, code: Option<string>, summary: Option<string>, now: Time,
    at: At): seq<C.Mark>
  {
    if Accepts(db, run, to) && Judges(to)
    then VerdictOn(cfg, cat, db.tasks, Moved(db.runs[run], to, code, summary, now), now, at) else []
  }

  /** The verdicts of a sweep, run by run. */
  function SweepMarks(cfg: Settings, cat: Catalog, db: Db, ids: seq<Id>, now: Time, at: At): seq<C.Mark> {
    if ids == [] then []
    else if ids[0] >= |db.runs| || db.runs[ids[0]].task >= |db.tasks| then []
    else
      VerdictOn(cfg, cat, db.tasks, Finished(db.runs[ids[0]], TimedOut, "timeout", now), now, at)
      + SweepMarks(cfg, cat, db, ids[1..], now, at)
  }

  /** What one service call does to the breaker at `at`. */
  function MarksOf(cfg: Settings, db: Db, cmd: Command, now: Time, at: At): seq<C.Mark> {
    match cmd
    case Move(cat, run, to, actor, code, summary) =>
      MoveMarks(cfg, cat, db, run, to, code, summary, now, at)
    case Sweep(cat, actor) => SweepMarks(cfg, cat, db, OverdueRuns(db.runs, now), now, at)
    case ResetBreaker(worker, profile, actor) => if (worker, profile) == at && at in db.circuits then [C.Reset] else []
    case _ => []
  }

  function Marks(cfg: Settings, history: seq<Event>, at: At): seq<C.Mark> {
    if history == [] then []
    else
      var init, last := history[..|history| - 1], history[|history| - 1];
      Marks(cfg, init, at) + MarksOf(cfg, Replay(cfg, init), last.cmd, last.now, at)
  }

  // ---- Calls that give a verdict --------------------------------------------------------------

  lemma RecordMarks(cfg: Settings, cat: Catalog, db: Db, run: Id, actor: string, now: Time, at: At)
    requires run < |db.runs| && db.runs[run].task < |db.tasks|
    ensures BreakerAt(RecordOutcome(cfg, cat, db, run, actor, now).circuits, at) ==
            C.Onto(BreakerAt(db.circuits, at), VerdictOn(cfg, cat, db.tasks, db.runs[run], now, at))
  {
    var marks := VerdictOn(cfg, cat, db.tasks, db.runs[run], now, at);
    if marks != [] {
      assert marks[..0] == [];
    }
  }

  lemma AccountedMarks(
    cfg: Settings, cat: Catalog, db: Db, run: Id, to: Status, actor: string, now: Time, at: At, filing: Filing)
    requires run < |db.runs| && db.runs[run].task < |db.tasks|
    requires filing == Accounted(cfg, cat, db, run, to, actor, now) && filing.Filed?
    ensures BreakerAt(filing.db.circuits, at) ==
            C.Onto(BreakerAt(db.circuits, at),
                 if Judges(to) then VerdictOn(cfg, cat, db.tasks, db.runs[run], now, at) else [])
  {
    RecordMarks(cfg, cat, db, run, actor, now, at);
  }

  lemma VerdictsAlike(cfg: Settings, cat: Catalog, a: seq<Task>, b: seq<Task>, row: Run, now: Time, at: At)
    requires SameTasks(a, b) && row.task < |a|
    ensures VerdictOn(cfg, cat, a, row, now, at) == VerdictOn(cfg, cat, b, row, now, at)
  {
  }

  lemma RestatedMarks(
    cfg: Settings, cat: Catalog, db: Db, run: Id, to: Status, actor: string, code: Option<string>,
    summary: Option<string>, now: Time, at: At, restated: Db)
    requires Accepts(db, run, to) && restated == Restated(db, run, to, actor, code, summary, now)
    ensures restated.circuits == db.circuits
    ensures run < |restated.runs| && restated.runs[run].task < |restated.tasks|
    ensures VerdictOn(cfg, cat, restated.tasks, restated.runs[run], now, at) ==
            VerdictOn(cfg, cat, db.tasks, Moved(db.runs[run], to, code, summary, now), now, at)
  {
    VerdictsAlike(cfg, cat, db.tasks, restated.tasks, restated.runs[run], now, at);
  }

  lemma MoveGives(
    cfg: Settings, cat: Catalog, db: Db, run: Id, to: Status, actor: string, code: Option<string>,
    summary: Option<string>, now: Time, at: At, step: Step)
    requires step == TransitionRun(cfg, cat, db, run, to, actor, code, summary, now)
    requires step.out != Refused("usage_ingest_conflict")
    ensures BreakerAt(step.db.circuits, at) ==
            C.Onto(BreakerAt(db.circuits, at), MoveMarks(cfg, cat, db, run, to, code, summary, now, at))
  {
    if Accepts(db, run, to) {
      var restated := Restated(db, run, to, actor, code, summary, now);
      RestatedMarks(cfg, cat, db, run, to, actor, code, summary, now, at, restated);
      AccountedMarks(cfg, cat, restated, run, to, actor, now, at, Accounted(cfg, cat, restated, run, to, actor, now));
    }
  }

  // ---- The sweep ------------------------------------------------------------------------------

  lemma TimeOutMarks(
    cfg: Settings, cat: Catalog, db: Db, run: Id, actor: string, now: Time, at: At, filing: Filing)
    requires run < |db.runs| && db.runs[run].task < |db.tasks|
    requires filing == TimeOut(cfg, cat, db, run, actor, now) && filing.Filed?
    ensures BreakerAt(filing.db.circuits, at) ==
            C.Onto(BreakerAt(db.circuits, at),
                 VerdictOn(cfg, cat, db.tasks, Finished(db.runs[run], TimedOut, "timeout", now), now, at))
  {
    var row := Finished(db.runs[run], TimedOut, "timeout", now);
    var stopped := Log(PutTaskStatus(PutRun(db, run, row), row.task, TimedOut), actor, "run.timed_out", RunRow(run));
    RecordMarks(cfg, cat, stopped, run, actor, now, at);
    VerdictsAlike(cfg, cat, db.tasks, stopped.tasks, row, now, at);
  }

  lemma {:induction false} SweepMarksAlike(
    cfg: Settings, cat: Catalog, db: Db, next: Db, ids: seq<Id>, now: Time, at: At)
    requires SameTasks(db.tasks, next.tasks) && |next.runs| == |db.runs|
    requires forall i :: i in ids && i < |db.runs| ==> next.runs[i] == db.runs[i]
    ensures SweepMarks(cfg, cat, next, ids, now, at) == SweepMarks(cfg, cat, db, ids, now, at)
  {
    if ids != [] {
      SweepMarksAlike(cfg, cat, db, next, ids[1..], now, at);
      if ids[0] < |db.runs| && db.runs[ids[0]].task < |db.tasks| {
        VerdictsAlike(cfg, cat, db.tasks, next.tasks,
          Finished(db.runs[ids[0]], TimedOut, "timeout", now), now, at);
      }
    }
  }

  lemma TimeOutRows(cfg: Settings, cat: Catalog, db: Db, run: Id, actor: string, now: Time, filing: Filing)
    requires run < |db.runs| && db.runs[run].task < |db.tasks|
    requires filing == TimeOut(cfg, cat, db, run, actor, now) && filing.Filed?
    ensures SameTasks(db.tasks, filing.db.tasks) && |filing.db.runs| == |db.runs|
    ensures forall i :: 0 <= i < |db.runs| && i != run ==> filing.db.runs[i] == db.runs[i]
  {
    var judged := TimeOutFiles(
      cfg, cat, db, run, actor, now, Finished(db.runs[run], TimedOut, "timeout", now), filing);
  }

  lemma FirstSwept(
    cfg: Settings, cat: Catalog, db: Db, ids: seq<Id>, actor: string, now: Time, at: At, after: Db)
    returns (next: Db, first: seq<C.Mark>)
    requires ids != [] && TimeOutEach(cfg, cat, db, ids, actor, now) == Swept(after)
    ensures TimeOutEach(cfg, cat, next, ids[1..], actor, now) == Swept(after)
    ensures SweepMarks(cfg, cat, db, ids, now, at) == first + SweepMarks(cfg, cat, db, ids[1..], now, at)
    ensures BreakerAt(next.circuits, at) == C.Onto(BreakerAt(db.circuits, at), first)
    ensures SameTasks(db.tasks, next.tasks) && |next.runs| == |db.runs|
    ensures forall i :: 0 <= i < |db.runs| && i != ids[0] ==> next.runs[i] == db.runs[i]
  {
    var filing := TimeOut(cfg, cat, db, ids[0], actor, now);
    TimeOutRows(cfg, cat, db, ids[0], actor, now, filing);
    TimeOutMarks(cfg, cat, db, ids[0], actor, now, at, filing);
    next := filing.db;
    first := VerdictOn(cfg, cat, db.tasks, Finished(db.runs[ids[0]], TimedOut, "timeout", now), now, at);
  }

  lemma {:induction false} SweepGives(
    cfg: Settings, cat: Catalog, db: Db, ids: seq<Id>, actor: string, now: Time, at: At, after: Db)
    requires forall j, k :: 0 <= j < k < |ids| ==> ids[j] != ids[k]
    requires TimeOutEach(cfg, cat, db, ids, actor, now) == Swept(after)
    ensures BreakerAt(after.circuits, at) ==
            C.Onto(BreakerAt(db.circuits, at), SweepMarks(cfg, cat, db, ids, now, at))
    decreases |ids|
  {
    if ids != [] {
      var next, first := FirstSwept(cfg, cat, db, ids, actor, now, at, after);
      SweepGives(cfg, cat, next, ids[1..], actor, now, at, after);
      SweepMarksAlike(cfg, cat, db, next, ids[1..], now, at);
      C.OntoSplit(BreakerAt(db.circuits, at), first, SweepMarks(cfg, cat, db, ids[1..], now, at));
    }
  }

  lemma SweepCallGives(cfg: Settings, cat: Catalog, db: Db, actor: string, now: Time, at: At, step: Step)
    requires Inv(cfg, db) && step == ExpireDueRuns(cfg, cat, db, actor, now)
    ensures BreakerAt(step.db.circuits, at) ==
            C.Onto(BreakerAt(db.circuits, at), SweepMarks(cfg, cat, db, OverdueRuns(db.runs, now), now, at))
  {
    var ids := OverdueRuns(db.runs, now);
    SweepKeepsInv(cfg, cat, db, actor, now, step);
    OverdueRunsAre(db.runs, now, ids);
    SweepGives(cfg, cat, db, ids, actor, now, at, step.db);
  }

  // ---- Calls that give none -------------------------------------------------------------------

  lemma ColumnsGiveNone(cfg: Settings, db: Db, cmd: Command, now: Time, step: Step)
    requires EditsColumns(cmd) && !cmd.ResetBreaker? && step == Apply(cfg, db, cmd, now)
    ensures step.db.circuits == db.circuits
  {
    hide ClaimEach, ClaimQuery, LeaseProblem;
    if cmd.Claim? && step.db != db {
      var ids := ClaimQuery(db.runs, cmd.locked, now, cmd.limit);
      ClaimQueryDistinct(db.runs, cmd.locked, now, cmd.limit, ids);
      ClaimEachShape(db, ids, cmd.owner, now, now + cmd.duration);
    }
  }

  lemma DispatchGivesNone(
    cfg: Settings, cat: Catalog, db: Db, task: Id, actor: string, key: Key, p: DispatchPayload, now: Time, step: Step)
    requires step == DispatchTask(cfg, cat, db, task, actor, key, p, now)
    ensures step.db.circuits == db.circuits
  {
  }

  lemma DeliverGivesNone(
    db: Db, task: Id, actor: string, key: string, handoff: Handoff, ttl: int, now: Time, step: Step)
    requires step == HandoffTask(db, task, actor, key, handoff, ttl, now)
    ensures step.db.circuits == db.circuits
  {
  }

  lemma CancelGivesNone(
    cfg: Settings, db: Db, task: Id, actor: string, key: string, reason: string, now: Time, step: Step)
    requires step == CancelTask(cfg, db, task, actor, key, reason, now)
    ensures step.db.circuits == db.circuits
  {
    RejectPendingShape(db, |db.approvals|, task, actor, key, reason);
    if CancelsAfresh(db, task, key) {
      var filing := StopActive(
        cfg, db.(tasks := db.tasks[task := CancelledTask(db.tasks[task], key)]), task, actor, reason, now);
      if filing.Filed? {
        RejectPendingShape(filing.db, |filing.db.approvals|, task, actor, key, reason);
      }
    }
  }

  lemma ExpireGivesNone(cfg: Settings, db: Db, run: Id, id: Id, now: Time, after: Db)
    requires run < |db.runs| && db.runs[run].task < |db.tasks| && id < |db.approvals|
    requires after == ExpireApproval(cfg, db, run, id, now).db
    ensures after.circuits == db.circuits
  {
  }

  lemma DecideGivesNone(
    cfg: Settings, db: Db, run: Id, id: Id, actor: string, key: string, decision: Verdict, reason: string, now: Time,
    after: Db)
    requires run < |db.runs| && db.runs[run].task < |db.tasks| && id < |db.approvals|
    requires after == Decide(cfg, db, run, id, actor, key, decision, reason, now).db
    ensures after.circuits == db.circuits
  {
  }

  lemma ResolveGivesNone(
    cfg: Settings, db: Db, run: Id, actor: string, key: string, decision: Verdict, reason: string, now: Time,
    after: Db)
    requires after == ResolveApproval(cfg, db, run, actor, key, decision, reason, now).db
    ensures after.circuits == db.circuits
  {
    if AtDecision(db, run, actor, key, now) {
      var id := Last(db.approvals, ApprovalOf(run)).value;
      DecisionBranches(cfg, db, run, actor, key, decision, reason, now, id);
      ExpireGivesNone(cfg, db, run, id, now, ExpireApproval(cfg, db, run, id, now).db);
      DecideGivesNone(cfg, db, run, id, actor, key, decision, reason, now,
        Decide(cfg, db, run, id, actor, key, decision, reason, now).db);
    } else {
      NotAtDecision(cfg, db, run, actor, key, decision, reason, now);
    }
  }

  // ---- Histories ------------------------------------------------------------------------------

  lemma ResetGives(db: Db, worker: string, profile: string, actor: string, at: At, step: Step)
    requires step == ResetCircuit(db, worker, profile, actor)
    ensures BreakerAt(step.db.circuits, at) ==
            if (worker, profile) == at && at in db.circuits then FRESH_CIRCUIT else BreakerAt(db.circuits, at)
  {
  }

  lemma TaskCallsGiveNone(cfg: Settings, db: Db, cmd: Command, now: Time, step: Step)
    requires !cmd.Move? && !cmd.Sweep? && !cmd.ResetBreaker? && step == Apply(cfg, db, cmd, now)
    ensures step.db.circuits == db.circuits
  {
    if EditsColumns(cmd) {
      ColumnsGiveNone(cfg, db, cmd, now, step);
    } else if cmd.Dispatch? {
      DispatchGivesNone(cfg, cmd.cat, db, cmd.task, cmd.actor, cmd.key, cmd.request, now, step);
    } else if cmd.Deliver? {
      DeliverGivesNone(db, cmd.task, cmd.actor, cmd.name, cmd.handoff, cmd.ttlSeconds, now, step);
    } else if cmd.Cancel? {
      CancelGivesNone(cfg, db, cmd.task, cmd.actor, cmd.name, cmd.reason, now, step);
    } else if cmd.Resolve? {
      ResolveGivesNone(cfg, db, cmd.run, cmd.actor, cmd.name, cmd.decision, cmd.reason, now, step.db);
    }
  }

  lemma CallGives(cfg: Settings, db: Db, cmd: Command, now: Time, at: At, step: Step)
    requires Inv(cfg, db) && step == Apply(cfg, db, cmd, now)
    ensures BreakerAt(step.db.circuits, at) == C.Onto(BreakerAt(db.circuits, at), MarksOf(cfg, db, cmd, now, at))
  {
    if cmd.Move? {
      TransitionKeepsInv(cfg, cmd.cat, db, cmd.run, cmd.to, cmd.actor, cmd.code, cmd.summary, now, step);
      MoveGives(cfg, cmd.cat, db, cmd.run, cmd.to, cmd.actor, cmd.code, cmd.summary, now, at, step);
    } else if cmd.Sweep? {
      SweepCallGives(cfg, cmd.cat, db, cmd.actor, now, at, step);
    } else if cmd.ResetBreaker? {
      ResetGives(db, cmd.worker, cmd.profile, cmd.actor, at, step);
      assert [C.Reset][..0] == [];
    } else {
      TaskCallsGiveNone(cfg, db, cmd, now, step);
    }
  }

  /**
    In every reachable state the breaker of a worker and profile is the fold of the verdicts that the
    history gave on it: moves and sweeps that ended its runs, in order, and resets by hand. No other call
    touches it.
   */
  lemma {:induction false} BreakersFoldTheirVerdicts(cfg: Settings, history: seq<Event>, at: At)
    requires Guarded(cfg, history)
    ensures BreakerAt(Replay(cfg, history).circuits, at) == C.Fold(Marks(cfg, history, at))
  {
    if history != [] {
      var init, last := history[..|history| - 1], history[|history| - 1];
      var before := Replay(cfg, init);
      BreakersFoldTheirVerdicts(cfg, init, at);
      EveryHistoryIsSafe(cfg, init);
      CallGives(cfg, before, last.cmd, last.now, at, Apply(cfg, before, last.cmd, last.now));
      C.OntoSplit(FRESH_CIRCUIT, Marks(cfg, init, at), MarksOf(cfg, before, last.cmd, last.now, at));
    }
  }

  /** So a breaker is open exactly when one verdict brought it to its threshold and no success or reset followed. */
  lemma BreakersOpenExactly(cfg: Settings, history: seq<Event>, at: At, marks: seq<C.Mark>)
    requires Guarded(cfg, history) && marks == Marks(cfg, history, at)
    ensures BreakerAt(Replay(cfg, history).circuits, at).open <==>
              exists k: nat :: C.TripsAt(marks, k) && C.Uncleared(marks, k)
  {
    BreakersFoldTheirVerdicts(cfg, history, at);
    C.OpenExactly(marks);
  }
}
