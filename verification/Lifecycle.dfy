/**
  The service functions of the task and run lifecycle, each as one atomic step on the tables.
  An error leaves the tables as they were, except where the service commits before raising.
 */
module Lifecycle {
  import opened Tables
  import opened Records
  import opened Controls

  const COMPLETION := "completion"
  const WATCHDOG := "system:watchdog"

  // ---- Row predicates -------------------------------------------------------------------------

  function RunKeyed(key: Key): Run -> bool {
    (r: Run) => r.key == key
  }

  function TaskKeyed(key: Key): Task -> bool {
    (t: Task) => t.key == key
  }

  function CancelledWith(key: string): Task -> bool {
    (t: Task) => t.cancelKey == Some(key)
  }

  function RunningOf(task: Id): Run -> bool {
    (r: Run) => r.task == task && r.status == Running
  }

  function ApprovalOf(run: Id): Approval -> bool {
    (a: Approval) => a.run == run
  }

  function PendingCompletion(run: Id): Approval -> bool {
    (a: Approval) => a.run == run && a.action == COMPLETION && a.verdict == Undecided
  }

  function DecidedWith(key: Key): Approval -> bool {
    (a: Approval) => a.decisionKey == Some(key)
  }

  function CommentKeyed(key: string): Comment -> bool {
    (c: Comment) => c.key == key
  }

  function Unmet(tasks: seq<Task>): Id -> bool {
    (d: Id) => d >= |tasks| || tasks[d].status != Completed
  }

  // ---- Row updates ----------------------------------------------------------------------------

  function Log(db: Db, actor: string, event: string, subject: Subject): Db {
    db.(audit := db.audit + [Audit(actor, event, subject)])
  }

  function PutRun(db: Db, run: Id, row: Run): Db
    requires run < |db.runs|
  {
    db.(runs := db.runs[run := row])
  }

  function PutTaskStatus(db: Db, task: Id, status: Status): Db
    requires task < |db.tasks|
  {
    db.(tasks := db.tasks[task := db.tasks[task].(status := status)])
  }

  function Finished(run: Run, status: Status, code: string, now: Time): Run {
    run.(status := status, errorCode := Some(code), finishedAt := Some(now), lease := None)
  }

  // ---- Leases ---------------------------------------------------------------------------------

  predicate Blank(s: string) {
    forall c | c in s :: c in {' ', '\t', '\n', '\r'}
  }

  predicate Claimable(run: Run, now: Time) {
    && run.status in {Dispatching, Running}
    && run.nextAttemptAt <= now
    && (run.lease.None? || run.lease.value.expires <= now)
  }

  /** The claim query's order: next attempt, then creation. */
  predicate Sooner(runs: seq<Run>, i: Id, j: Id)
    requires i < |runs| && j < |runs|
  {
    runs[i].nextAttemptAt < runs[j].nextAttemptAt
    || (runs[i].nextAttemptAt == runs[j].nextAttemptAt && i < j)
  }

  /** The soonest claimable run among the first `n`, leaving out `taken`. */
  function Soonest(runs: seq<Run>, n: nat, taken: set<Id>, now: Time): (found: Option<Id>)
    requires n <= |runs|
    ensures found.Some? ==>
              && found.value < n && found.value !in taken && Claimable(runs[found.value], now)
              && forall i :: 0 <= i < n && i !in taken && Claimable(runs[i], now) && i != found.value ==>
                   Sooner(runs, found.value, i)
    ensures found.None? ==> forall i :: 0 <= i < n && i !in taken ==> !Claimable(runs[i], now)
  {
    if n == 0 then None
    else
      var found := Soonest(runs, n - 1, taken, now);
      if n - 1 in taken || !Claimable(runs[n - 1], now) then found
      else if found.Some? && !Sooner(runs, n - 1, found.value) then found
      else Some(n - 1)
  }

  /** The claim query: rows locked by others are skipped, at most `limit` are returned. */
  function ClaimQuery(runs: seq<Run>, taken: set<Id>, now: Time, limit: nat): seq<Id>
    decreases limit
  {
    if limit == 0 then []
    else match Soonest(runs, |runs|, taken, now)
      case None => []
      case Some(i) => [i] + ClaimQuery(runs, taken + {i}, now, limit - 1)
  }

  function Claimed(run: Run, owner: string, now: Time, expires: Time): Run {
    run.(lease := Some(Lease(owner, now, expires, now)), dispatchAttempts := run.dispatchAttempts + 1)
  }

  function ClaimEach(db: Db, ids: seq<Id>, owner: string, now: Time, expires: Time): Db {
    if ids == [] then db
    else
      var rest := ClaimEach(db, ids[..|ids| - 1], owner, now, expires);
      var i := ids[|ids| - 1];
      if i < |rest.runs| then
        Log(PutRun(rest, i, Claimed(rest.runs[i], owner, now, expires)), owner, "run.claimed", RunRow(i))
      else rest
  }

  function ClaimRuns(db: Db, owner: string, duration: Time, limit: int, locked: set<Id>, now: Time): Step {
    if Blank(owner) then Step(db, Refused("invalid_lease_owner"))
    else if limit < 1 then Step(db, Refused("invalid_claim_limit"))
    else if duration <= 0 then Step(db, Refused("invalid_lease_duration"))
    else
      var ids := ClaimQuery(db.runs, locked, now, limit);
      Step(ClaimEach(db, ids, owner, now, now + duration), Ok(|ids|, false))
  }

  function LeaseProblem(run: Run, owner: string, now: Time): Option<string> {
    if run.lease.None? || run.lease.value.owner != owner then Some("dispatch_lease_owner_mismatch")
    else if run.lease.value.expires <= now then Some("dispatch_lease_expired")
    else if run.status !in {Dispatching, Running} then Some("dispatch_lease_inactive")
    else None
  }

  function Heartbeat(db: Db, run: Id, owner: string, duration: Time, now: Time): Step {
    if duration <= 0 then Step(db, Refused("invalid_lease_duration"))
    else if run >= |db.runs| then Step(db, Refused("not_found"))
    else match LeaseProblem(db.runs[run], owner, now)
      case Some(code) => Step(db, Refused(code))
      case None =>
        var lease := db.runs[run].lease.value.(heartbeat := now, expires := now + duration);
        Step(PutRun(db, run, db.runs[run].(lease := Some(lease))), Ok(run, false))
  }

  function Release(db: Db, run: Id, owner: string, nextAttemptAt: Time, now: Time): Step {
    if run >= |db.runs| then Step(db, Refused("not_found"))
    else match LeaseProblem(db.runs[run], owner, now)
      case Some(code) => Step(db, Refused(code))
      case None =>
        Step(Log(PutRun(db, run, db.runs[run].(lease := None, nextAttemptAt := nextAttemptAt)),
                 owner, "run.lease_released", RunRow(run)),
             Ok(run, false))
  }

  // ---- Tasks ----------------------------------------------------------------------------------

  function CreateTask(db: Db, actor: string, key: Key, payload: TaskPayload): Step {
    match Last(db.tasks, TaskKeyed(key))
    case Some(t) =>
      if db.tasks[t].payload != payload || db.tasks[t].requester != actor
      then Step(db, Refused("idempotency_conflict"))
      else Step(db, Ok(t, true))
    case None =>
      if exists d :: d in payload.dependencies && d >= |db.tasks| then Step(db, Refused("dependency_not_found"))
      else if payload.parent.Some? && payload.parent.value >= |db.tasks| then Step(db, Refused("integrity_error"))
      else
        var row := Task(actor, key, payload, Pending, None);
        Step(Log(db.(tasks := db.tasks + [row]), actor, "task.created", TaskRow(|db.tasks|)),
             Ok(|db.tasks|, false))
  }

  /** `max(attempt_number)` over the task's runs, 0 when it has none. */
  function LastAttempt(runs: seq<Run>, task: Id): int {
    if runs == [] then 0
    else
      var rest := LastAttempt(runs[..|runs| - 1], task);
      var r := runs[|runs| - 1];
      if r.task == task then Max(rest, r.attempt) else rest
  }

  function NewRun(db: Db, task: Id, key: Key, p: DispatchPayload, now: Time): Run
    requires task < |db.tasks|
  {
    var end := now + Seconds(p.timeoutSeconds);
    Run(
      task, LastAttempt(db.runs, task) + 1, p.worker, p.profile, None, key, p,
      if p.requiresApproval then AwaitingApproval else Dispatching,
      0, now, None,
      match db.tasks[task].payload.deadline case None => end case Some(d) => Min(end, d),
      None, None, None, None, None, UNREPORTED, NO_DETAILS, now)
  }

  /** The insertions of an admitted dispatch. */
  function Launch(db: Db, task: Id, actor: string, key: Key, p: DispatchPayload, now: Time): Db
    requires task < |db.tasks|
  {
    var run := |db.runs|;
    var inserted := db.(runs := db.runs + [NewRun(db, task, key, p, now)]);
    var gated :=
      if p.requiresApproval then
        inserted.(approvals := inserted.approvals + [
          Approval(run, p.approvalAction, Undecided, actor, now + Seconds(p.approvalTtlSeconds), None, None, None)])
      else inserted;
    Log(PutTaskStatus(gated, task, if p.requiresApproval then AwaitingApproval else Dispatched),
        actor, "task.dispatched", RunRow(run))
  }

  /** A dispatch under a key that was not used before. */
  function DispatchNew(
    cfg: Settings, cat: Catalog, db: Db, task: Id, actor: string, key: Key, p: DispatchPayload, now: Time): Step
  {
    if task >= |db.tasks| then Step(db, Refused("not_found"))
    else
      var t := db.tasks[task];
      if t.status !in {Pending, Blocked, Failed, TimedOut} then Step(db, Refused("invalid_transition"))
      else if t.payload.independentReview && t.payload.reviewer == Some(p.worker) then
        Step(db, Refused("self_review_denied"))
      else if Has(t.payload.dependencies, Unmet(db.tasks)) then
        Step(PutTaskStatus(db, task, Blocked), Refused("dependency_unmet"))
      else if Has(db.runs, ActiveOf(task)) then Step(db, Refused("run_already_active"))
      else match Gatekeep(cfg, cat, db, task, p.worker, p.profile, now)
        case Deny(code) => Step(Log(db, actor, "dispatch.control_denied", TaskRow(task)), Refused(code))
        case Admit(soft) =>
          var noted := if soft then Log(db, actor, "budget.soft_exceeded", TaskRow(task)) else db;
          Step(Launch(noted, task, actor, key, p, now), Ok(|db.runs|, false))
  }

  function DispatchTask(
    cfg: Settings, cat: Catalog, db: Db, task: Id, actor: string, key: Key, p: DispatchPayload, now: Time): Step
  {
    match Last(db.runs, RunKeyed(key))
    case Some(r) =>
      if db.runs[r].task != task || db.runs[r].request != p then Step(db, Refused("idempotency_conflict"))
      else Step(db, Ok(r, true))
    case None => DispatchNew(cfg, cat, db, task, actor, key, p, now)
  }

  // ---- Run transitions ------------------------------------------------------------------------

  function TaskStatusAfter(approvals: seq<Approval>, run: Id, row: Run, to: Status): Status {
    if to == Completed && row.details.handoff.Some? then
      if row.details.handoff.value.handoff.outcome == "blocked" then Blocked
      else if Has(approvals, PendingCompletion(run)) then AwaitingApproval
      else Completed
    else match to
      case Dispatching => Dispatched
      case Running => InProgress
      case other => other
  }

  function Moved(run: Run, to: Status, code: Option<string>, summary: Option<string>, now: Time): Run {
    var moved := run.(
      status := to,
      errorCode := code,
      summary := summary,
      startedAt := if to == Running && run.startedAt.None? then Some(now) else run.startedAt);
    if Terminal(to) then moved.(finishedAt := Some(now), lease := None) else moved
  }

  /** The tables once a move has rewritten the run and its task. */
  function Restated(
    db: Db, run: Id, to: Status, actor: string, code: Option<string>, summary: Option<string>, now: Time): Db
    requires run < |db.runs| && db.runs[run].task < |db.tasks|
  {
    var row := db.runs[run];
    Log(PutTaskStatus(PutRun(db, run, Moved(row, to, code, summary, now)), row.task,
                      TaskStatusAfter(db.approvals, run, row, to)),
        actor, "run." + StatusName(to), RunRow(run))
  }

  /** The accounting of a move: the circuit breaker for verdicts, the ledger for every ending. */
  function Accounted(
    cfg: Settings, cat: Catalog, db: Db, run: Id, to: Status, actor: string, now: Time): Filing
    requires run < |db.runs| && db.runs[run].task < |db.tasks|
  {
    var judged := if to in {Completed, Failed, TimedOut} then RecordOutcome(cfg, cat, db, run, actor, now) else db;
    if Terminal(to) then Ingest(cfg, judged, run, actor, now) else Filed(judged)
  }

  function MoveRun(
    cfg: Settings, cat: Catalog, db: Db, run: Id, to: Status, actor: string, code: Option<string>,
    summary: Option<string>, now: Time): Filing
    requires run < |db.runs| && db.runs[run].task < |db.tasks|
  {
    Accounted(cfg, cat, Restated(db, run, to, actor, code, summary, now), run, to, actor, now)
  }

  /** A ledger conflict rolls the whole move back. */
  function Concluded(db: Db, run: Id, filing: Filing): Step {
    match filing
    case Filed(done) => Step(done, Ok(run, false))
    case Conflict => Step(db, Refused("usage_ingest_conflict"))
  }

  function TransitionRun(
    cfg: Settings, cat: Catalog, db: Db, run: Id, to: Status, actor: string, code: Option<string>,
    summary: Option<string>, now: Time): Step
  {
    if run >= |db.runs| then Step(db, Refused("not_found"))
    else if !MayMove(db.runs[run].status, to) then Step(db, Refused("invalid_transition"))
    else if db.runs[run].task >= |db.tasks| then Step(db, Refused("not_found"))
    else Concluded(db, run, MoveRun(cfg, cat, db, run, to, actor, code, summary, now))
  }

  /** The columns a dispatcher writes from what the worker reports; none of them is fenced by the lease. */
  datatype Report = Report(
    workerRunId: Option<string>,
    usage: Usage,
    details: Details,
    effectiveProfile: Option<string>)

  function Observe(db: Db, run: Id, report: Report): Step {
    if run >= |db.runs| then Step(db, Refused("not_found"))
    else
      var row := db.runs[run];
      Step(PutRun(db, run, row.(
             workerRunId := report.workerRunId,
             usage := report.usage,
             details := report.details.(handoff := row.details.handoff),
             effectiveProfile := report.effectiveProfile)),
           Ok(run, false))
  }

  // ---- Hand-over and approvals ----------------------------------------------------------------

  function HandoffTask(
    db: Db, task: Id, actor: string, key: string, handoff: Handoff, ttlSeconds: int, now: Time): Step
  {
    match Last(db.comments, CommentKeyed(key))
    case Some(c) =>
      if db.comments[c].task != task || db.comments[c].actor != actor
         || db.comments[c].handoff.handoff != handoff
      then Step(db, Refused("idempotency_conflict"))
      else Step(db, Ok(c, true))
    case None =>
      if task >= |db.tasks| then Step(db, Refused("not_found"))
      else match Last(db.runs, RunningOf(task))
        case None => Step(db, Refused("active_run_not_found"))
        case Some(run) =>
          var payload := db.tasks[task].payload;
          if db.runs[run].worker != actor then Step(db, Refused("worker_mismatch"))
          else if handoff.outcome !in {"blocked", "completed"} then Step(db, Refused("invalid_handoff"))
          else if handoff.outcome == "completed" && payload.independentReview && payload.reviewer == Some(actor) then
            Step(db, Refused("self_review_denied"))
          else
            var comment := |db.comments|;
            var stored := StoredHandoff(handoff, run, comment);
            var row := db.runs[run];
            var noted := PutRun(db.(comments := db.comments + [Comment(task, actor, key, stored)]),
                                run, row.(details := row.details.(handoff := Some(stored))));
            var done :=
              if handoff.outcome == "blocked" then
                Log(PutTaskStatus(noted, task, Blocked), actor, "task.blocked", TaskRow(task))
              else if payload.independentReview then
                var asked := noted.(approvals := noted.approvals + [
                  Approval(run, COMPLETION, Undecided, actor, now + Seconds(ttlSeconds), None, None, None)]);
                Log(PutTaskStatus(asked, task, AwaitingApproval), actor, "task.completion_requested", TaskRow(task))
              else
                Log(PutTaskStatus(noted, task, Completed), actor, "task.completed_handoff", TaskRow(task));
            Step(done, Ok(comment, false))
  }

  predicate PendingOn(runs: seq<Run>, task: Id, a: Approval) {
    a.verdict == Undecided && a.run < |runs| && runs[a.run].task == task
  }

  function CancelledApproval(id: Id, a: Approval, task: Id, actor: string, key: string, reason: string): Approval {
    a.(verdict := Rejected, decidedBy := Some(actor), reason := Some("Tarea cancelada: " + reason),
       decisionKey := Some(CancelRejection(id, Named(key), task)))
  }

  /** Reject the task's pending approvals among the first `n`, oldest first. */
  function RejectPending(db: Db, n: nat, task: Id, actor: string, key: string, reason: string): Db
    requires n <= |db.approvals|
    ensures |RejectPending(db, n, task, actor, key, reason).approvals| == |db.approvals|
  {
    if n == 0 then db
    else
      var rest := RejectPending(db, n - 1, task, actor, key, reason);
      if PendingOn(db.runs, task, db.approvals[n - 1]) then
        Log(rest.(approvals := rest.approvals[n - 1 :=
              CancelledApproval(n - 1, db.approvals[n - 1], task, actor, key, reason)]),
            actor, "approval.rejected", ApprovalRow(n - 1))
      else rest
  }

  /** Stop the task's newest active run, if it has one. */
  function StopActive(cfg: Settings, db: Db, task: Id, actor: string, reason: string, now: Time): Filing
    requires task < |db.tasks|
  {
    match Last(db.runs, ActiveOf(task))
    case None => Filed(db)
    case Some(run) =>
      Ingest(cfg,
        PutRun(db, run, Finished(db.runs[run], Cancelled, "cancelled", now).(summary := Some(reason))),
        run, actor, now)
  }

  function CancelTask(
    cfg: Settings, db: Db, task: Id, actor: string, key: string, reason: string, now: Time): Step
  {
    if task >= |db.tasks| then Step(db, Refused("not_found"))
    else
      var t := db.tasks[task];
      if t.cancelKey.Some? then
        if t.cancelKey != Some(key) then Step(db, Refused("already_cancelled"))
        else Step(RejectPending(db, |db.approvals|, task, actor, key, reason), Ok(task, true))
      else if t.status == Completed then Step(db, Refused("invalid_transition"))
      else if Has(db.tasks, CancelledWith(key)) then Step(db, Refused("integrity_error"))
      else
        var marked := db.(tasks := db.tasks[task := t.(cancelKey := Some(key), status := Cancelled)]);
        match StopActive(cfg, marked, task, actor, reason, now)
        case Conflict => Step(db, Refused("usage_ingest_conflict"))
        case Filed(done) =>
          Step(Log(RejectPending(done, |done.approvals|, task, actor, key, reason),
                   actor, "task.cancelled", TaskRow(task)),
               Ok(task, false))
  }

  /** Why the service refuses to look at the decision at all; `None` when the decision takes effect. */
  function DecisionProblem(db: Db, run: Id, actor: string, now: Time): Option<string>
    requires run < |db.runs| && db.runs[run].task < |db.tasks|
    requires Last(db.approvals, ApprovalOf(run)).Some?
  {
    var a := db.approvals[Last(db.approvals, ApprovalOf(run)).value];
    var payload := db.tasks[db.runs[run].task].payload;
    if actor == db.runs[run].worker then Some("self_review_denied")
    else if payload.independentReview && Some(actor) != payload.reviewer then Some("reviewer_mismatch")
    else if a.action == COMPLETION && db.runs[run].status != Completed then Some("handoff_not_terminal")
    else None
  }

  function CloseRun(
    cfg: Settings, db: Db, run: Id, code: string, actor: string, now: Time): Filing
    requires run < |db.runs| && db.runs[run].task < |db.tasks|
  {
    Ingest(cfg,
      PutTaskStatus(PutRun(db, run, Finished(db.runs[run], Failed, code, now)), db.runs[run].task, Failed),
      run, actor, now)
  }

  /** An approval found past its expiry fails its run, unless it only gates completion. */
  function ExpireApproval(cfg: Settings, db: Db, run: Id, approval: Id, now: Time): Step
    requires run < |db.runs| && db.runs[run].task < |db.tasks| && approval < |db.approvals|
  {
    var a := db.approvals[approval];
    var expired := db.(approvals := db.approvals[approval := a.(verdict := Expired)]);
    var closed :=
      if a.action == COMPLETION then Filed(PutTaskStatus(expired, db.runs[run].task, Failed))
      else CloseRun(cfg, expired, run, "approval_expired", WATCHDOG, now);
    match closed
    case Conflict => Step(db, Refused("usage_ingest_conflict"))
    case Filed(done) =>
      Step(Log(done, WATCHDOG, "approval.expired", ApprovalRow(approval)), Refused("approval_expired"))
  }

  function Decide(
    cfg: Settings, db: Db, run: Id, approval: Id, actor: string, key: string, decision: Verdict, reason: string,
    now: Time): Step
    requires run < |db.runs| && db.runs[run].task < |db.tasks| && approval < |db.approvals|
  {
    var a := db.approvals[approval];
    var task := db.runs[run].task;
    var decided := db.(approvals := db.approvals[approval :=
      a.(verdict := decision, decidedBy := Some(actor), reason := Some(reason), decisionKey := Some(Named(key)))]);
    var effect :=
      if a.action == COMPLETION then
        Filed(PutTaskStatus(decided, task, if decision == Approved then Completed else Failed))
      else if decision == Approved then
        Filed(PutTaskStatus(
          PutRun(decided, run, db.runs[run].(status := Dispatching, nextAttemptAt := now)), task, Dispatched))
      else CloseRun(cfg, decided, run, "approval_rejected", actor, now);
    match effect
    case Conflict => Step(db, Refused("usage_ingest_conflict"))
    case Filed(done) =>
      Step(Log(done, actor, if decision == Approved then "approval.approved" else "approval.rejected",
               ApprovalRow(approval)),
           Ok(approval, false))
  }

  function ResolveApproval(
    cfg: Settings, db: Db, run: Id, actor: string, key: string, decision: Verdict, reason: string, now: Time): Step
  {
    if run >= |db.runs| || db.runs[run].task >= |db.tasks| then Step(db, Refused("not_found"))
    else match Last(db.approvals, ApprovalOf(run))
      case None => Step(db, Refused("approval_not_found"))
      case Some(approval) =>
        var a := db.approvals[approval];
        if a.decisionKey.Some? then
          if && a.decisionKey == Some(Named(key)) && a.verdict == decision
             && a.decidedBy == Some(actor) && a.reason == Some(reason)
          then Step(db, Ok(approval, true))
          else Step(db, Refused("idempotency_conflict"))
        else match DecisionProblem(db, run, actor, now)
          case Some(code) => Step(db, Refused(code))
          case None =>
            if a.expiresAt <= now then ExpireApproval(cfg, db, run, approval, now)
            else if Has(db.approvals, DecidedWith(Named(key))) then Step(db, Refused("integrity_error"))
            else Decide(cfg, db, run, approval, actor, key, decision, reason, now)
  }

  // ---- Watchdog -------------------------------------------------------------------------------

  predicate Overdue(run: Run, now: Time) {
    Active(run.status) && run.timeoutAt <= now
  }

  function OverdueRuns(runs: seq<Run>, now: Time): seq<Id> {
    if runs == [] then []
    else
      var i := |runs| - 1;
      OverdueRuns(runs[..i], now) + (if Overdue(runs[i], now) then [i] else [])
  }

  function TimeOut(cfg: Settings, cat: Catalog, db: Db, run: Id, actor: string, now: Time): Filing
    requires run < |db.runs| && db.runs[run].task < |db.tasks|
  {
    var stopped := Log(
      PutTaskStatus(PutRun(db, run, Finished(db.runs[run], TimedOut, "timeout", now)), db.runs[run].task, TimedOut),
      actor, "run.timed_out", RunRow(run));
    Ingest(cfg, RecordOutcome(cfg, cat, stopped, run, actor, now), run, actor, now)
  }

  datatype Sweep = Swept(db: Db) | Aborted(code: string)

  function TimeOutEach(cfg: Settings, cat: Catalog, db: Db, ids: seq<Id>, actor: string, now: Time): Sweep
    decreases |ids|
  {
    if ids == [] then Swept(db)
    else if ids[0] >= |db.runs| || db.runs[ids[0]].task >= |db.tasks| then Aborted("not_found")
    else match TimeOut(cfg, cat, db, ids[0], actor, now)
      case Filed(next) => TimeOutEach(cfg, cat, next, ids[1..], actor, now)
      case Conflict => Aborted("usage_ingest_conflict")
  }

  function ExpireDueRuns(cfg: Settings, cat: Catalog, db: Db, actor: string, now: Time): Step {
    var ids := OverdueRuns(db.runs, now);
    match TimeOutEach(cfg, cat, db, ids, actor, now)
    case Swept(done) => Step(done, Ok(|ids|, false))
    case Aborted(code) => Step(db, Refused(code))
  }

  /** An operator closes a breaker by hand. */
  function ResetCircuit(db: Db, worker: string, profile: string, actor: string): Step {
    if (worker, profile) !in db.circuits then Step(db, Refused("not_found"))
    else
      Step(Log(db.(circuits := db.circuits[(worker, profile) := FRESH_CIRCUIT]),
               actor, "circuit.reset", CircuitRow(worker, profile)),
           Ok(0, false))
  }

  // ---- Commands -------------------------------------------------------------------------------

  datatype Command =
    | Claim(owner: string, duration: Time, limit: int, locked: set<Id>)
    | Beat(run: Id, owner: string, duration: Time)
    | Drop(run: Id, owner: string, nextAttemptAt: Time)
    | Create(actor: string, key: Key, payload: TaskPayload)
    | Dispatch(cat: Catalog, task: Id, actor: string, key: Key, request: DispatchPayload)
    | Move(cat: Catalog, run: Id, to: Status, actor: string, code: Option<string>, summary: Option<string>)
    | Note(run: Id, report: Report)
    | Deliver(task: Id, actor: string, name: string, handoff: Handoff, ttlSeconds: int)
    | Cancel(task: Id, actor: string, name: string, reason: string)
    | Resolve(run: Id, actor: string, name: string, decision: Verdict, reason: string)
    | Sweep(cat: Catalog, actor: string)
    | ResetBreaker(worker: string, profile: string, actor: string)

  /** One committed service call at time `now`. */
  function Apply(cfg: Settings, db: Db, cmd: Command, now: Time): Step {
    match cmd
    case Claim(owner, duration, limit, locked) => ClaimRuns(db, owner, duration, limit, locked, now)
    case Beat(run, owner, duration) => Heartbeat(db, run, owner, duration, now)
    case Drop(run, owner, next) => Release(db, run, owner, next, now)
    case Create(actor, key, payload) => CreateTask(db, actor, key, payload)
    case Dispatch(cat, task, actor, key, request) => DispatchTask(cfg, cat, db, task, actor, key, request, now)
    case Move(cat, run, to, actor, code, summary) => TransitionRun(cfg, cat, db, run, to, actor, code, summary, now)
    case Note(run, report) => Observe(db, run, report)
    case Deliver(task, actor, name, handoff, ttl) => HandoffTask(db, task, actor, name, handoff, ttl, now)
    case Cancel(task, actor, name, reason) => CancelTask(cfg, db, task, actor, name, reason, now)
    case Resolve(run, actor, name, decision, reason) =>
      ResolveApproval(cfg, db, run, actor, name, decision, reason, now)
    case Sweep(cat, actor) => ExpireDueRuns(cfg, cat, db, actor, now)
    case ResetBreaker(worker, profile, actor) => ResetCircuit(db, worker, profile, actor)
  }
}
