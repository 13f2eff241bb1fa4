/** What creations, hand-overs, cancellations, decisions and sweeps leave in every table, and why each is refused. */
module Effects {
  import opened Tables
  import opened Records
  import opened Controls
  import opened Lifecycle
  import opened Invariants
  import opened Closing
  import opened Approvals
  import opened Moves

  // ---- Changes ------------------------------------------------------------------------------------

  /** The run was ended from outside, under a code. */
  predicate RowEnded(a: Run, b: Run, status: Status, code: string, summary: Option<string>, now: Time) {
    b == a.(status := status, errorCode := Some(code), summary := summary, finishedAt := Some(now), lease := None)
  }

  /** One task was restated, and nothing else in its table. */
  predicate TaskRestated(a: seq<Task>, b: seq<Task>, task: Id, status: Status) {
    task < |a| && b == a[task := a[task].(status := status)]
  }

  /** One more entry in the ledger, for the run as its row now stands. */
  predicate BookedNext(project: string, db: Db, after: Db, run: Id) {
    && |after.ledger| == |db.ledger| + 1 && after.ledger[..|db.ledger|] == db.ledger
    && run < |after.runs| && after.runs[run].task < |after.tasks|
    && Carries(project, after.tasks[after.runs[run].task], run, after.runs[run], after.ledger[|db.ledger|])
  }

  /** The only run that may be running on a task. */
  predicate RunsOn(runs: seq<Run>, task: Id, run: Id) {
    run < |runs| && runs[run].task == task && runs[run].status == Running
  }

  lemma OnlyRunning(runs: seq<Run>, task: Id, run: Id)
    requires OneActive(runs) && RunsOn(runs, task, run)
    ensures Last(runs, RunningOf(task)) == Some(run)
  {
    assert RunningOf(task)(runs[run]);
  }

  predicate Commented(db: Db, key: string) {
    exists c :: 0 <= c < |db.comments| && db.comments[c].key == key
  }

  // ---- Creations ------------------------------------------------------------------------------------

  predicate Created(db: Db, key: Key) {
    exists t :: 0 <= t < |db.tasks| && db.tasks[t].key == key
  }

  /** A task is created once per key, pending and as asked for, if what it depends on exists. */
  lemma CreationsExactly(db: Db, actor: string, key: Key, payload: TaskPayload, step: Step)
    requires step == CreateTask(db, actor, key, payload)
    ensures Created(db, key) ==>
              && step.db == db
              && if step.out.Ok? then
                   && step.out.replayed && step.out.id < |db.tasks| && db.tasks[step.out.id].key == key
                   && db.tasks[step.out.id].payload == payload && db.tasks[step.out.id].requester == actor
                 else step.out == Refused("idempotency_conflict")
    ensures !Created(db, key) ==>
              if exists d :: d in payload.dependencies && d >= |db.tasks| then
                step == Step(db, Refused("dependency_not_found"))
              else if payload.parent.Some? && payload.parent.value >= |db.tasks| then
                step == Step(db, Refused("integrity_error"))
              else
                && step.out == Ok(|db.tasks|, false)
                && step.db == db.(tasks := db.tasks + [Task(actor, key, payload, Pending, None)],
                                  audit := db.audit + [Audit(actor, "task.created", TaskRow(|db.tasks|))])
    ensures forall t :: 0 <= t < |db.tasks| && db.tasks[t].key == key && Keyed(db) ==>
              (step.out == Ok(t, true) <==> db.tasks[t].payload == payload && db.tasks[t].requester == actor)
  {
    var last := Last(db.tasks, TaskKeyed(key));
    forall t | 0 <= t < |db.tasks| && db.tasks[t].key == key ensures last.Some? && (Keyed(db) ==> last == Some(t)) {
      assert TaskKeyed(key)(db.tasks[t]);
    }
  }

  // ---- Hand-overs -----------------------------------------------------------------------------------

  /** The hand-over is on the run and in a comment; the task is blocked, under review or completed. */
  predicate HandedOver(
    db: Db, after: Db, task: Id, run: Id, actor: string, key: string, handoff: Handoff, ttl: int, now: Time)
    requires task < |db.tasks| && run < |db.runs|
  {
    var stored := StoredHandoff(handoff, run, |db.comments|);
    var reviewed := db.tasks[task].payload.independentReview;
    && after.runs == db.runs[run := db.runs[run].(details := db.runs[run].details.(handoff := Some(stored)))]
    && after.comments == db.comments + [Comment(task, actor, key, stored)]
    && (handoff.outcome == "blocked" ==>
          TaskRestated(db.tasks, after.tasks, task, Blocked) && after.approvals == db.approvals)
    && (handoff.outcome != "blocked" && reviewed ==>
          && TaskRestated(db.tasks, after.tasks, task, AwaitingApproval)
          && after.approvals == db.approvals + [
               Approval(run, "completion", Undecided, actor, now + Seconds(ttl), None, None, None)])
    && (handoff.outcome != "blocked" && !reviewed ==>
          TaskRestated(db.tasks, after.tasks, task, Completed) && after.approvals == db.approvals)
    && after.ledger == db.ledger && after.circuits == db.circuits
    && |after.audit| == |db.audit| + 1 && after.audit[..|db.audit|] == db.audit
    && after.audit[|db.audit|] == Audit(
         actor,
         if handoff.outcome == "blocked" then "task.blocked"
         else if reviewed then "task.completion_requested" else "task.completed_handoff",
         TaskRow(task))
  }

  /** With a run under way, a hand-over under a new key is accepted from its worker, if it is well-formed. */
  lemma HandoverExactly(
    db: Db, task: Id, run: Id, actor: string, key: string, handoff: Handoff, ttl: int, now: Time, step: Step)
    requires OneActive(db.runs) && task < |db.tasks| && RunsOn(db.runs, task, run) && !Commented(db, key)
    requires step == HandoffTask(db, task, actor, key, handoff, ttl, now)
    ensures step.out ==
            if db.runs[run].worker != actor then Refused("worker_mismatch")
            else if handoff.outcome != "blocked" && handoff.outcome != "completed" then Refused("invalid_handoff")
            else if && handoff.outcome == "completed" && db.tasks[task].payload.independentReview
                    && db.tasks[task].payload.reviewer == Some(actor)
            then Refused("self_review_denied")
            else Ok(|db.comments|, false)
    ensures if step.out.Ok? then HandedOver(db, step.db, task, run, actor, key, handoff, ttl, now) else step.db == db
  {
    OnlyRunning(db.runs, task, run);
    assert Last(db.comments, CommentKeyed(key)).None?;
  }

  /** Without one it is refused; and a key that was used is answered with its comment or refused. */
  lemma HandoverElse(
    db: Db, task: Id, actor: string, key: string, handoff: Handoff, ttl: int, now: Time, step: Step)
    requires step == HandoffTask(db, task, actor, key, handoff, ttl, now)
    requires Commented(db, key) || task >= |db.tasks| || forall r: Id :: !RunsOn(db.runs, task, r)
    ensures step.db == db
    ensures !Commented(db, key) ==>
              step.out == if task >= |db.tasks| then Refused("not_found") else Refused("active_run_not_found")
    ensures Commented(db, key) ==>
              || step.out == Refused("idempotency_conflict")
              || (&& step.out.Ok? && step.out.replayed && step.out.id < |db.comments|
                  && db.comments[step.out.id].key == key && db.comments[step.out.id].task == task
                  && db.comments[step.out.id].actor == actor
                  && db.comments[step.out.id].handoff.handoff == handoff)
  {
    if Commented(db, key) {
      var c :| 0 <= c < |db.comments| && db.comments[c].key == key;
      assert CommentKeyed(key)(db.comments[c]);
    } else {
      assert Last(db.comments, CommentKeyed(key)).None?;
      assert forall r :: 0 <= r < |db.runs| && RunningOf(task)(db.runs[r]) ==> RunsOn(db.runs, task, r);
    }
  }

  // ---- Cancellations --------------------------------------------------------------------------------

  predicate ActsOn(runs: seq<Run>, task: Id, run: Id) {
    run < |runs| && runs[run].task == task && Active(runs[run].status)
  }

  lemma OnlyActive(runs: seq<Run>, task: Id, run: Id)
    requires OneActive(runs) && ActsOn(runs, task, run)
    ensures Last(runs, ActiveOf(task)) == Some(run)
  {
    assert ActiveOf(task)(runs[run]);
  }

  /** The approvals of the task's runs that waited are rejected by whoever cancelled it; the others are as they were. */
  predicate ApprovalsRejected(db: Db, after: Db, task: Id, actor: string, key: string, reason: string) {
    && |after.approvals| == |db.approvals|
    && forall a :: 0 <= a < |db.approvals| ==>
         var was := db.approvals[a];
         if was.verdict == Undecided && was.run < |db.runs| && db.runs[was.run].task == task then
           after.approvals[a] == was.(
             verdict := Rejected, decidedBy := Some(actor), reason := Some("Tarea cancelada: " + reason),
             decisionKey := Some(CancelRejection(a, Named(key), task)))
         else after.approvals[a] == was
  }

  predicate UsedToCancel(db: Db, key: string) {
    exists t :: 0 <= t < |db.tasks| && db.tasks[t].cancelKey == Some(key)
  }

  lemma UsedKeys(db: Db, key: string)
    ensures Has(db.tasks, CancelledWith(key)) <==> UsedToCancel(db, key)
  {
    if t :| 0 <= t < |db.tasks| && db.tasks[t].cancelKey == Some(key) {
      assert CancelledWith(key)(db.tasks[t]);
    }
  }

  /** Why a cancellation is not carried out, if it is not. */
  function CancelProblem(db: Db, task: Id, key: string): (problem: Option<Outcome>) {
    if task >= |db.tasks| then Some(Refused("not_found"))
    else if db.tasks[task].cancelKey == Some(key) then Some(Ok(task, true))
    else if db.tasks[task].cancelKey.Some? then Some(Refused("already_cancelled"))
    else if db.tasks[task].status == Completed then Some(Refused("invalid_transition"))
    else if UsedToCancel(db, key) then Some(Refused("integrity_error"))
    else None
  }

  /** The task is marked, its active run is stopped and booked, and its waiting approvals are rejected. */
  ghost predicate CalledOff(
    project: string, db: Db, after: Db, task: Id, actor: string, key: string, reason: string, now: Time)
    requires task < |db.tasks|
  {
    && after.tasks == db.tasks[task := db.tasks[task].(status := Cancelled, cancelKey := Some(key))]
    && ApprovalsRejected(db, after, task, actor, key, reason)
    && |after.runs| == |db.runs| && after.comments == db.comments && after.circuits == db.circuits
    && (forall r: Id :: r < |db.runs| && !ActsOn(db.runs, task, r) ==> after.runs[r] == db.runs[r])
    && (forall r: Id :: ActsOn(db.runs, task, r) ==>
          && RowEnded(db.runs[r], after.runs[r], Cancelled, "cancelled", Some(reason), now)
          && BookedNext(project, db, after, r))
    && ((forall r: Id :: !ActsOn(db.runs, task, r)) ==> after.ledger == db.ledger)
  }

  /** A cancellation is refused, repeated or carried out in full. */
  lemma CancelExactly(
    cfg: Settings, db: Db, task: Id, actor: string, key: string, reason: string, now: Time, step: Step)
    requires Inv(cfg, db) && step == CancelTask(cfg, db, task, actor, key, reason, now)
    ensures step.out == CancelProblem(db, task, key).GetOr(Ok(task, false))
    ensures CancelProblem(db, task, key).Some? ==> step.db == db
    ensures CancelProblem(db, task, key).None? ==> CalledOff(cfg.project, db, step.db, task, actor, key, reason, now)
  {
    hide Inv, CancelTask, CalledOff;
    UsedKeys(db, key);
    if CancelProblem(db, task, key).Some? {
      CancelRefused(cfg, db, task, actor, key, reason, now, step);
    } else {
      CancelDone(cfg, db, task, actor, key, reason, now, step);
    }
  }

  lemma CancelRefused(
    cfg: Settings, db: Db, task: Id, actor: string, key: string, reason: string, now: Time, step: Step)
    requires Inv(cfg, db) && CancelProblem(db, task, key).Some?
    requires step == CancelTask(cfg, db, task, actor, key, reason, now)
    ensures step.out == CancelProblem(db, task, key).value && step.db == db
  {
    hide Core, StopActive;
    UsedKeys(db, key);
    if step.db != db {
      CancelAgainIsQuiet(cfg, db, task, actor, key, reason, now, step);
    }
  }

  /** The tables between stopping the run and rejecting the approvals. */
  lemma StopIsBooked(
    cfg: Settings, db: Db, marked: Db, task: Id, run: Id, actor: string, key: string, reason: string, now: Time,
    filing: Filing)
    requires Inv(cfg, db) && task < |db.tasks| && ActsOn(db.runs, task, run)
    requires marked == db.(tasks := db.tasks[task := db.tasks[task].(cancelKey := Some(key), status := Cancelled)])
    requires filing == StopActive(cfg, marked, task, actor, reason, now)
    ensures filing.Filed? && filing.db.runs == db.runs[run := filing.db.runs[run]]
    ensures RowEnded(db.runs[run], filing.db.runs[run], Cancelled, "cancelled", Some(reason), now)
    ensures filing.db.tasks == marked.tasks && BookedNext(cfg.project, db, filing.db, run)
    ensures filing.db.approvals == db.approvals && filing.db.comments == db.comments
    ensures filing.db.circuits == db.circuits && filing.db.runs[run].task == task
  {
    hide Ingest, Carries;
    OnlyActive(db.runs, task, run);
    ActiveIsUnbooked(cfg, db, run);
    var staged := PutRun(marked, run,
      Finished(db.runs[run], Cancelled, "cancelled", now).(summary := Some(reason)));
    StillUnbooked(db, staged, run);
    FilingAppends(cfg, staged, run, actor, now, filing);
  }

  lemma CancelDone(
    cfg: Settings, db: Db, task: Id, actor: string, key: string, reason: string, now: Time, step: Step)
    requires Inv(cfg, db) && CancelProblem(db, task, key).None?
    requires step == CancelTask(cfg, db, task, actor, key, reason, now)
    ensures step.out == Ok(task, false) && CalledOff(cfg.project, db, step.db, task, actor, key, reason, now)
  {
    hide Inv, StopActive, RejectPending, RowEnded, Carries;
    UsedKeys(db, key);
    var marked := db.(tasks := db.tasks[task := db.tasks[task].(cancelKey := Some(key), status := Cancelled)]);
    var filing := StopActive(cfg, marked, task, actor, reason, now);
    if run: Id :| ActsOn(db.runs, task, run) {
      ActsAlone(cfg, db, task, run);
      StopIsBooked(cfg, db, marked, task, run, actor, key, reason, now, filing);
    } else {
      NothingToStop(cfg, marked, task, actor, reason, now);
    }
    var done := filing.db;
    var rejected := RejectPending(done, |done.approvals|, task, actor, key, reason);
    RejectPendingShape(done, |done.approvals|, task, actor, key, reason);
  }

  lemma ActsAlone(cfg: Settings, db: Db, task: Id, run: Id)
    requires Inv(cfg, db) && ActsOn(db.runs, task, run)
    ensures forall r: Id :: ActsOn(db.runs, task, r) ==> r == run
  {
  }

  lemma NothingToStop(cfg: Settings, db: Db, task: Id, actor: string, reason: string, now: Time)
    requires task < |db.tasks| && forall r: Id :: !ActsOn(db.runs, task, r)
    ensures StopActive(cfg, db, task, actor, reason, now) == Filed(db)
  {
    var last := Last(db.runs, ActiveOf(task));
    if last.Some? {
      assert ActsOn(db.runs, task, last.value);
    }
  }

  // ---- Decisions ------------------------------------------------------------------------------------

  /** The approval a decision on the run is about: the newest one. */
  predicate Newest(approvals: seq<Approval>, run: Id, a: Id) {
    a < |approvals| && approvals[a].run == run && forall b :: a < b < |approvals| ==> approvals[b].run != run
  }

  lemma NewestIsLast(approvals: seq<Approval>, run: Id, a: Id)
    requires Newest(approvals, run, a)
    ensures Last(approvals, ApprovalOf(run)) == Some(a)
  {
    assert ApprovalOf(run)(approvals[a]);
  }

  lemma NewestOf(cfg: Settings, db: Db, run: Id) returns (a: Id)
    requires Inv(cfg, db) && exists a :: 0 <= a < |db.approvals| && db.approvals[a].run == run
    ensures run < |db.runs| && Newest(db.approvals, run, a)
  {
    hide AllSealed, WithinCaps, Numbered, Keyed, OneActive, Booked, Unleased;
    var some :| 0 <= some < |db.approvals| && db.approvals[some].run == run;
    assert ApprovalOf(run)(db.approvals[some]);
    a := Last(db.approvals, ApprovalOf(run)).value;
    assert forall b :: a < b < |db.approvals| ==> !ApprovalOf(run)(db.approvals[b]);
  }

  predicate UsedToDecide(db: Db, key: string) {
    exists a :: 0 <= a < |db.approvals| && db.approvals[a].decisionKey == Some(Named(key))
  }

  lemma UsedDecisionKeys(db: Db, key: string)
    ensures Has(db.approvals, DecidedWith(Named(key))) <==> UsedToDecide(db, key)
  {
    if a :| 0 <= a < |db.approvals| && db.approvals[a].decisionKey == Some(Named(key)) {
      assert DecidedWith(Named(key))(db.approvals[a]);
    }
  }

  /** Why a decision does not take effect, if it does not. */
  function DecisionRefused(
    db: Db, run: Id, a: Id, actor: string, key: string, decision: Verdict, reason: string, now: Time): Option<Outcome>
    requires run < |db.runs| && db.runs[run].task < |db.tasks| && a < |db.approvals|
  {
    var asked := db.approvals[a];
    var payload := db.tasks[db.runs[run].task].payload;
    if asked.decisionKey.Some? then
      Some(if && asked.decisionKey.value == Named(key) && asked.verdict == decision
              && asked.decidedBy == Some(actor) && asked.reason == Some(reason)
           then Ok(a, true) else Refused("idempotency_conflict"))
    else if actor == db.runs[run].worker then Some(Refused("self_review_denied"))
    else if payload.independentReview && payload.reviewer != Some(actor) then Some(Refused("reviewer_mismatch"))
    else if asked.action == "completion" && db.runs[run].status != Completed then
      Some(Refused("handoff_not_terminal"))
    else if now < asked.expiresAt && UsedToDecide(db, key) then Some(Refused("integrity_error"))
    else None
  }

  /** Only this approval changed, to the given row. */
  predicate Ruled(db: Db, after: Db, a: Id, row: Approval) {
    a < |db.approvals| && after.approvals == db.approvals[a := row] && after.comments == db.comments
    && after.circuits == db.circuits
  }

  /** The run of the approval is failed, and with it its task; a run that was under way is booked. */
  ghost predicate RunFailed(project: string, db: Db, after: Db, run: Id, code: string, now: Time) {
    && run < |db.runs| && |after.runs| == |db.runs| && after.runs == db.runs[run := after.runs[run]]
    && RowEnded(db.runs[run], after.runs[run], Failed, code, db.runs[run].summary, now)
    && TaskRestated(db.tasks, after.tasks, db.runs[run].task, Failed)
    && if Active(db.runs[run].status) then BookedNext(project, db, after, run) else after.ledger == db.ledger
  }

  /** What a decision that takes effect says about the approval, its run, its task and the ledger. */
  ghost predicate Decided(
    project: string, db: Db, after: Db, run: Id, a: Id, actor: string, key: string, decision: Verdict, reason: string,
    now: Time)
    requires run < |db.runs| && a < |db.approvals|
  {
    var asked := db.approvals[a];
    && Ruled(db, after, a, asked.(
         verdict := decision, decidedBy := Some(actor), reason := Some(reason), decisionKey := Some(Named(key))))
    && if asked.action == "completion" then
         && after.runs == db.runs && after.ledger == db.ledger
         && TaskRestated(db.tasks, after.tasks, db.runs[run].task, if decision == Approved then Completed else Failed)
       else if decision == Approved then
         && after.runs == db.runs[run := db.runs[run].(status := Dispatching, nextAttemptAt := now)]
         && TaskRestated(db.tasks, after.tasks, db.runs[run].task, Dispatched) && after.ledger == db.ledger
       else
         RunFailed(project, db, after, run, "approval_rejected", now)
  }

  /** What a decision leaves that came too late for its approval. */
  ghost predicate Lapsed(project: string, db: Db, after: Db, run: Id, a: Id, now: Time)
    requires run < |db.runs| && a < |db.approvals|
  {
    && Ruled(db, after, a, db.approvals[a].(verdict := Expired))
    && if db.approvals[a].action == "completion" then
         && after.runs == db.runs && after.ledger == db.ledger
         && TaskRestated(db.tasks, after.tasks, db.runs[run].task, Failed)
       else
         RunFailed(project, db, after, run, "approval_expired", now)
  }

  /** A decision that would fail a run that has ended; the ledger then mostly objects. */
  predicate FailsEndedRun(db: Db, run: Id, a: Id, decision: Verdict, now: Time)
    requires run < |db.runs| && a < |db.approvals|
  {
    && db.approvals[a].action != "completion" && Terminal(db.runs[run].status)
    && (db.approvals[a].expiresAt <= now || decision != Approved)
  }

  /** A decision on the newest approval of a run is refused, finds the approval lapsed, or takes effect. */
  lemma ResolveExactly(
    cfg: Settings, db: Db, run: Id, a: Id, actor: string, key: string, decision: Verdict, reason: string, now: Time,
    step: Step)
    requires Inv(cfg, db) && run < |db.runs| && Newest(db.approvals, run, a)
    requires step == ResolveApproval(cfg, db, run, actor, key, decision, reason, now)
    ensures db.runs[run].task < |db.tasks|
    ensures var refused := DecisionRefused(db, run, a, actor, key, decision, reason, now);
            if refused.Some? then step.out == refused.value && step.db == db
            else if FailsEndedRun(db, run, a, decision, now) && step.out == Refused("usage_ingest_conflict") then
              step.db == db
            else if db.approvals[a].expiresAt <= now then
              step.out == Refused("approval_expired") && Lapsed(cfg.project, db, step.db, run, a, now)
            else
              && step.out == Ok(a, false)
              && Decided(cfg.project, db, step.db, run, a, actor, key, decision, reason, now)
  {
    hide AllSealed, WithinCaps, Numbered, Keyed, OneActive, Booked, Unleased, ExpireApproval, Decide, Lapsed, Decided;
    NewestIsLast(db.approvals, run, a);
    UsedDecisionKeys(db, key);
    if DecisionRefused(db, run, a, actor, key, decision, reason, now).None? {
      if db.approvals[a].expiresAt <= now {
        LapsesExactly(cfg, db, run, a, now, step);
      } else {
        DecidesExactly(cfg, db, run, a, actor, key, decision, reason, now, step);
      }
    }
  }

  /** Without an approval, or without the run, there is nothing to decide. */
  lemma NothingToResolve(
    cfg: Settings, db: Db, run: Id, actor: string, key: string, decision: Verdict, reason: string, now: Time,
    step: Step)
    requires Inv(cfg, db) && forall a :: 0 <= a < |db.approvals| ==> db.approvals[a].run != run
    requires step == ResolveApproval(cfg, db, run, actor, key, decision, reason, now)
    ensures step == Step(db, Refused(if run >= |db.runs| then "not_found" else "approval_not_found"))
  {
    hide AllSealed, WithinCaps, Numbered, Keyed, OneActive, Booked, Unleased, ExpireApproval, Decide;
  }

  /** Failing an active run books it; the entry of one that has ended is left alone, or the ledger objects. */
  lemma ClosingBooks(
    cfg: Settings, db: Db, staged: Db, run: Id, code: string, actor: string, now: Time, filing: Filing)
    requires Inv(cfg, db) && run < |db.runs|
    requires staged == db.(approvals := staged.approvals) && db.runs[run].task < |db.tasks|
    requires filing == CloseRun(cfg, staged, run, code, actor, now)
    ensures Active(db.runs[run].status) ==> filing.Filed?
    ensures Active(db.runs[run].status) || Terminal(db.runs[run].status)
    ensures filing.Filed? ==>
              && RunFailed(cfg.project, db, filing.db, run, code, now)
              && filing.db.approvals == staged.approvals && filing.db.comments == db.comments
              && filing.db.circuits == db.circuits
  {
    hide Inv, EntryFor, Carries;
    RunsActOrEnded(cfg, db, run);
    var closed := PutTaskStatus(
      PutRun(staged, run, Finished(db.runs[run], Failed, code, now)), db.runs[run].task, Failed);
    if Active(db.runs[run].status) {
      ActiveIsUnbooked(cfg, db, run);
      StillUnbooked(db, closed, run);
      FilingAppends(cfg, closed, run, actor, now, filing);
    } else {
      EndedIsBooked(cfg, db, run);
    }
  }

  lemma LapsesExactly(cfg: Settings, db: Db, run: Id, a: Id, now: Time, step: Step)
    requires Inv(cfg, db) && run < |db.runs| && db.runs[run].task < |db.tasks|
    requires a < |db.approvals| && db.approvals[a].expiresAt <= now
    requires step == ExpireApproval(cfg, db, run, a, now)
    ensures if step.out == Refused("usage_ingest_conflict")
            then step.db == db && FailsEndedRun(db, run, a, Approved, now)
            else step.out == Refused("approval_expired") && Lapsed(cfg.project, db, step.db, run, a, now)
  {
    hide Inv, CloseRun, RowEnded, Carries;
    var staged := db.(approvals := db.approvals[a := db.approvals[a].(verdict := Expired)]);
    var filing := CloseRun(cfg, staged, run, "approval_expired", WATCHDOG, now);
    ClosingBooks(cfg, db, staged, run, "approval_expired", WATCHDOG, now, filing);
  }

  lemma DecidesExactly(
    cfg: Settings, db: Db, run: Id, a: Id, actor: string, key: string, decision: Verdict, reason: string, now: Time,
    step: Step)
    requires Inv(cfg, db) && run < |db.runs| && db.runs[run].task < |db.tasks| && a < |db.approvals|
    requires step == Decide(cfg, db, run, a, actor, key, decision, reason, now)
    ensures if step.out == Refused("usage_ingest_conflict")
            then step.db == db && FailsEndedRun(db, run, a, decision, now)
            else && step.out == Ok(a, false)
                 && Decided(cfg.project, db, step.db, run, a, actor, key, decision, reason, now)
  {
    hide Inv, CloseRun, RowEnded, Carries;
    var staged := db.(approvals := db.approvals[a := db.approvals[a].(
      verdict := decision, decidedBy := Some(actor), reason := Some(reason), decisionKey := Some(Named(key)))]);
    var filing := CloseRun(cfg, staged, run, "approval_rejected", actor, now);
    ClosingBooks(cfg, db, staged, run, "approval_rejected", actor, now, filing);
  }

  lemma RunsActOrEnded(cfg: Settings, db: Db, run: Id)
    requires Inv(cfg, db) && run < |db.runs|
    ensures Active(db.runs[run].status) || Terminal(db.runs[run].status)
  {
  }

  lemma EndedIsBooked(cfg: Settings, db: Db, run: Id)
    requires Inv(cfg, db) && run < |db.runs| && Terminal(db.runs[run].status)
    ensures Last(db.ledger, ForRun(run)).Some?
  {
    hide AllSealed, WithinCaps, Numbered, Keyed;
    EndedRunIsBooked(db, run);
  }

  // ---- The sweep ------------------------------------------------------------------------------------

  /** The run is still under way past its time. */
  predicate Late(run: Run, now: Time) {
    (run.status == Dispatching || run.status == Running || run.status == AwaitingApproval) && run.timeoutAt <= now
  }

  predicate Hit(runs: seq<Run>, ids: seq<Id>, task: Id) {
    exists k :: 0 <= k < |ids| && ids[k] < |runs| && runs[ids[k]].task == task
  }

  /** The listed runs are timed out with their tasks and booked in this order; nothing else changed. */
  ghost predicate TimedOutAll(project: string, db: Db, after: Db, ids: seq<Id>, now: Time) {
    && |after.runs| == |db.runs| && |after.tasks| == |db.tasks|
    && (forall i :: 0 <= i < |db.runs| ==>
          if i in ids then RowEnded(db.runs[i], after.runs[i], TimedOut, "timeout", db.runs[i].summary, now)
          else after.runs[i] == db.runs[i])
    && (forall t :: 0 <= t < |db.tasks| ==>
          after.tasks[t] == if Hit(db.runs, ids, t) then db.tasks[t].(status := TimedOut) else db.tasks[t])
    && after.approvals == db.approvals && after.comments == db.comments
    && |after.ledger| == |db.ledger| + |ids| && after.ledger[..|db.ledger|] == db.ledger
    && forall k :: 0 <= k < |ids| ==> EntryAt(project, db, after, ids[k], |db.ledger| + k)
  }

  ghost predicate EntryAt(project: string, db: Db, after: Db, run: Id, e: Id) {
    && run < |db.runs| && run < |after.runs| && db.runs[run].task < |db.tasks| && e < |after.ledger|
    && Carries(project, db.tasks[db.runs[run].task], run, after.runs[run], after.ledger[e])
  }

  lemma OneTimedOut(
    cfg: Settings, cat: Catalog, db: Db, run: Id, actor: string, now: Time, filing: Filing)
    requires Inv(cfg, db) && run < |db.runs| && Active(db.runs[run].status) && db.runs[run].task < |db.tasks|
    requires filing == TimeOut(cfg, cat, db, run, actor, now)
    ensures filing.Filed? && TimedOutAll(cfg.project, db, filing.db, [run], now)
  {
    hide Inv, TimeOut, Ingest, RecordOutcome, Carries;
    var row := Finished(db.runs[run], TimedOut, "timeout", now);
    var judged := TimeOutFiles(cfg, cat, db, run, actor, now, row, filing);
    ActiveIsUnbooked(cfg, db, run);
    StillUnbooked(db, judged, run);
    FilingAppends(cfg, judged, run, actor, now, filing);
    CarriesAlike(cfg.project, judged.tasks[row.task], db.tasks[row.task], run, row, filing.db.ledger[|db.ledger|]);
    forall t | 0 <= t < |db.tasks| ensures Hit(db.runs, [run], t) <==> db.runs[run].task == t {
      if db.runs[run].task == t {
        assert [run][0] == run;
      }
    }
  }

  lemma TimedOutTogether(project: string, db: Db, next: Db, after: Db, ids: seq<Id>, now: Time)
    requires ids != [] && ids[0] < |db.runs| && ids[0] !in ids[1..]
    requires TimedOutAll(project, db, next, [ids[0]], now) && TimedOutAll(project, next, after, ids[1..], now)
    ensures TimedOutAll(project, db, after, ids, now)
  {
    hide Carries, EntryAt;
    assert ids == [ids[0]] + ids[1..];
    forall t | 0 <= t < |db.tasks|
      ensures Hit(db.runs, ids, t) <==> Hit(db.runs, [ids[0]], t) || Hit(next.runs, ids[1..], t)
    {
      HitsSplit(db.runs, next.runs, ids, t);
    }
    forall k | 0 <= k < |ids| ensures EntryAt(project, db, after, ids[k], |db.ledger| + k) {
      EntriesTogether(project, db, next, after, ids, now, k);
    }
  }

  lemma EntriesTogether(project: string, db: Db, next: Db, after: Db, ids: seq<Id>, now: Time, k: nat)
    requires k < |ids| && ids[0] < |db.runs| && ids[0] !in ids[1..]
    requires TimedOutAll(project, db, next, [ids[0]], now) && TimedOutAll(project, next, after, ids[1..], now)
    ensures EntryAt(project, db, after, ids[k], |db.ledger| + k)
  {
    hide Carries, Hit;
    assert next.ledger == after.ledger[..|next.ledger|];
    if k > 0 {
      assert ids[k] == ids[1..][k - 1] && EntryAt(project, next, after, ids[1..][k - 1], |next.ledger| + (k - 1));
      CarriesAlike(project, next.tasks[next.runs[ids[k]].task], db.tasks[db.runs[ids[k]].task], ids[k],
        after.runs[ids[k]], after.ledger[|db.ledger| + k]);
    } else {
      assert EntryAt(project, db, next, [ids[0]][0], |db.ledger| + 0);
    }
  }

  lemma HitsSplit(a: seq<Run>, b: seq<Run>, ids: seq<Id>, t: Id)
    requires ids != [] && |a| == |b| && forall i :: 0 <= i < |a| ==> a[i].task == b[i].task
    ensures Hit(a, ids, t) <==> Hit(a, [ids[0]], t) || Hit(b, ids[1..], t)
  {
    if Hit(a, ids, t) {
      var k :| 0 <= k < |ids| && ids[k] < |a| && a[ids[k]].task == t;
      if k == 0 {
        assert a[[ids[0]][0]].task == t;
      } else {
        assert b[ids[1..][k - 1]].task == t;
      }
    }
    if Hit(b, ids[1..], t) {
      var k :| 0 <= k < |ids[1..]| && ids[1..][k] < |b| && b[ids[1..][k]].task == t;
      assert a[ids[k + 1]].task == t;
    }
  }

  lemma {:induction false} EachTimedOut(
    cfg: Settings, cat: Catalog, db: Db, ids: seq<Id>, actor: string, now: Time, sweep: Sweep)
    requires Inv(cfg, db) && DistinctActive(db, ids) && sweep == TimeOutEach(cfg, cat, db, ids, actor, now)
    ensures sweep.Swept? && TimedOutAll(cfg.project, db, sweep.db, ids, now)
    decreases |ids|
  {
    hide Core, AllSealed, TimeOut, RowEnded, EntryAt, Carries;
    if ids != [] {
      RunsHaveTasks(cfg, db, ids[0]);
      var filing := TimeOut(cfg, cat, db, ids[0], actor, now);
      TimeOutKeepsInv(cfg, cat, db, ids[0], actor, now, filing);
      OneTimedOut(cfg, cat, db, ids[0], actor, now, filing);
      TailStillActive(db, filing.db, ids, now);
      EachTimedOut(cfg, cat, filing.db, ids[1..], actor, now, sweep);
      TimedOutTogether(cfg.project, db, filing.db, sweep.db, ids, now);
    }
  }

  lemma RunsHaveTasks(cfg: Settings, db: Db, run: Id)
    requires Inv(cfg, db) && run < |db.runs|
    ensures db.runs[run].task < |db.tasks|
  {
  }

  /** A sweep times out the late runs, every one and no other, with their tasks, and books each of them once. */
  lemma SweepExactly(cfg: Settings, cat: Catalog, db: Db, actor: string, now: Time, step: Step)
    returns (ids: seq<Id>)
    requires Inv(cfg, db) && step == ExpireDueRuns(cfg, cat, db, actor, now)
    ensures forall i: Id :: i in ids <==> i < |db.runs| && Late(db.runs[i], now)
    ensures forall j, k :: 0 <= j < k < |ids| ==> ids[j] < ids[k]
    ensures step.out == Ok(|ids|, false) && TimedOutAll(cfg.project, db, step.db, ids, now)
  {
    hide Inv, TimeOutEach, TimedOutAll;
    ids := OverdueRuns(db.runs, now);
    OverdueRunsAre(db.runs, now, ids);
    EachTimedOut(cfg, cat, db, ids, actor, now, TimeOutEach(cfg, cat, db, ids, actor, now));
  }
}
