/** Dispatch gates, circuit breakers and the usage ledger. */
module Controls {
  import opened Tables
  import opened Records
  import opened Limits

  function IsActive(): Run -> bool {
    (r: Run) => Active(r.status)
  }

  function OfTask(task: Id): Run -> bool {
    (r: Run) => r.task == task
  }

  function ActiveOf(task: Id): Run -> bool {
    (r: Run) => r.task == task && Active(r.status)
  }

  function ActiveChildOf(tasks: seq<Task>, parent: Id): Run -> bool {
    (r: Run) => r.task < |tasks| && tasks[r.task].payload.parent == Some(parent) && Active(r.status)
  }

  function ForRun(run: Id): LedgerEntry -> bool {
    (e: LedgerEntry) => e.run == run
  }

  // ---- Admission ------------------------------------------------------------------------------

  function Tokens(usage: Usage): nat {
    usage.input.GetOr(0) + usage.output.GetOr(0) + usage.reasoning.GetOr(0)
    + usage.cacheRead.GetOr(0) + usage.cacheWrite.GetOr(0)
  }

  /** Known tokens of the project's entries since the cutoff; unknown counts add nothing. */
  function Consumed(ledger: seq<LedgerEntry>, project: string, cutoff: Time): nat {
    if ledger == [] then 0
    else
      var e := ledger[|ledger| - 1];
      Consumed(ledger[..|ledger| - 1], project, cutoff)
      + (if e.project == project && e.createdAt >= cutoff then Tokens(e.usage) else 0)
  }

  function Exhausted(project: string, now: Time): LedgerEntry -> bool {
    (e: LedgerEntry) =>
      e.project == project && e.quotaExhausted && e.quotaResetAt.Some? && e.quotaResetAt.value > now
  }

  function ScopeOf(task: Task, worker: string, profile: string): Scope {
    Scope(worker, profile, OrElse(task.payload.workflowRef, "uncategorized"), task.payload.budget)
  }

  /** The counters the limits are compared with. */
  datatype Load = Load(attempts: int, siblings: Option<int>, active: int, projected: int)

  function LoadOf(cfg: Settings, db: Db, task: Id, windowSeconds: int, now: Time): Load
    requires task < |db.tasks|
  {
    var payload := db.tasks[task].payload;
    Load(
      Count(db.runs, OfTask(task)),
      match payload.parent
      case None => None
      case Some(p) => Some(Count(db.runs, ActiveChildOf(db.tasks, p))),
      Count(db.runs, IsActive()),
      Consumed(db.ledger, cfg.project, now - Seconds(windowSeconds))
      + Integer(JsonAt(payload.budget, "estimated_tokens")).GetOr(0))
  }

  function OverLimit(limits: ControlLimits, load: Load): Option<string> {
    if load.attempts > limits.maxRetries then Some("retry_limit_exceeded")
    else if load.siblings.Some? && load.siblings.value >= limits.maxFanOut then Some("fan_out_limit_exceeded")
    else if load.active >= limits.maxConcurrentRuns then Some("concurrency_limit_exceeded")
    else if limits.hardTokens.Some? && load.projected >= limits.hardTokens.value then Some("budget_hard_exceeded")
    else None
  }

  datatype Gate = Deny(code: string) | Admit(overSoftLimit: bool)

  function Gatekeep(
    cfg: Settings, cat: Catalog, db: Db, task: Id, worker: string, profile: string, now: Time): Gate
    requires task < |db.tasks|
  {
    var slug := WithoutPrefix(worker, "agent:");
    var limits := LimitsFor(cfg, cat.budgets, ScopeOf(db.tasks[task], worker, profile));
    var load := LoadOf(cfg, db, task, limits.windowSeconds, now);
    if profile in cat.profiles && !cat.profiles[profile].enabled then Deny("execution_profile_unavailable")
    else if slug in cat.allowed && profile !in cat.allowed[slug] then Deny("execution_profile_denied")
    else if profile in cat.profiles && cat.profiles[profile].effort in {"xhigh", "max", "ultra"} then
      Deny("reasoning_effort_denied")
    else if (worker, profile) in db.circuits && db.circuits[(worker, profile)].open then Deny("circuit_open")
    else if Has(db.ledger, Exhausted(cfg.project, now)) then Deny("quota_exhausted")
    else match OverLimit(limits, load)
      case Some(code) => Deny(code)
      case None => Admit(limits.softTokens.Some? && load.projected >= limits.softTokens.value)
  }

  /** An admitted dispatch finds every counter strictly below the configured caps, whatever the budgets say. */
  lemma AdmittedBelowCaps(
    cfg: Settings, cat: Catalog, db: Db, task: Id, worker: string, profile: string, now: Time)
    requires task < |db.tasks|
    requires Gatekeep(cfg, cat, db, task, worker, profile, now).Admit?
    ensures Count(db.runs, OfTask(task)) <= cfg.maxRetries
    ensures Count(db.runs, IsActive()) < Max(1, cfg.maxConcurrentRuns)
    ensures db.tasks[task].payload.parent.Some? ==>
              Count(db.runs, ActiveChildOf(db.tasks, db.tasks[task].payload.parent.value)) < Max(1, cfg.maxFanOut)
  {
    BudgetsOnlyTighten(cfg, cat.budgets, cat.budgets, ScopeOf(db.tasks[task], worker, profile));
  }

  lemma {:induction false} ConsumedShrinks(ledger: seq<LedgerEntry>, project: string, early: Time, late: Time)
    requires early <= late
    ensures Consumed(ledger, project, late) <= Consumed(ledger, project, early)
  {
    if ledger != [] {
      ConsumedShrinks(ledger[..|ledger| - 1], project, early, late);
    }
  }

  lemma TighterLimitsDenyMore(a: ControlLimits, b: ControlLimits, x: Load, y: Load)
    requires b.maxRetries <= a.maxRetries && b.maxFanOut <= a.maxFanOut
    requires b.maxConcurrentRuns <= a.maxConcurrentRuns
    requires a.hardTokens.Some? && b.hardTokens.Some? && b.hardTokens.value <= a.hardTokens.value
    requires x.attempts == y.attempts && x.siblings == y.siblings && x.active == y.active
    requires x.projected <= y.projected
    ensures OverLimit(a, x).Some? ==> OverLimit(b, y).Some?
  {
  }

  lemma WiderWindowLoadsMore(cfg: Settings, db: Db, task: Id, narrow: int, wide: int, now: Time)
    requires task < |db.tasks| && narrow <= wide
    ensures var x, y := LoadOf(cfg, db, task, narrow, now), LoadOf(cfg, db, task, wide, now);
            x.projected <= y.projected && y == x.(projected := y.projected)
  {
    ConsumedShrinks(db.ledger, cfg.project, now - Seconds(wide), now - Seconds(narrow));
  }

  lemma DenialCarriesOver(a: ControlLimits, b: ControlLimits, cfg: Settings, db: Db, task: Id, now: Time)
    requires task < |db.tasks|
    requires b.maxRetries <= a.maxRetries && b.maxFanOut <= a.maxFanOut
    requires b.maxConcurrentRuns <= a.maxConcurrentRuns
    requires a.hardTokens.Some? && b.hardTokens.Some? && b.hardTokens.value <= a.hardTokens.value
    requires a.windowSeconds <= b.windowSeconds
    requires OverLimit(a, LoadOf(cfg, db, task, a.windowSeconds, now)).Some?
    ensures OverLimit(b, LoadOf(cfg, db, task, b.windowSeconds, now)).Some?
  {
    WiderWindowLoadsMore(cfg, db, task, a.windowSeconds, b.windowSeconds, now);
    TighterLimitsDenyMore(a, b,
      LoadOf(cfg, db, task, a.windowSeconds, now), LoadOf(cfg, db, task, b.windowSeconds, now));
  }

  /** A dispatch refused for load stays refused when budget rows are added, unless the window shrinks. */
  lemma DenialSurvivesNewBudgets(
    cfg: Settings, fewer: seq<BudgetRow>, more: seq<BudgetRow>, who: Scope, db: Db, task: Id, now: Time)
    requires task < |db.tasks|
    requires forall row :: row in fewer ==> row in more
    requires LimitsFor(cfg, fewer, who).windowSeconds <= LimitsFor(cfg, more, who).windowSeconds
    ensures Refuses(cfg, fewer, who, db, task, now) ==> Refuses(cfg, more, who, db, task, now)
  {
    BudgetsOnlyTighten(cfg, fewer, more, who);
    if Refuses(cfg, fewer, who, db, task, now) {
      DenialCarriesOver(LimitsFor(cfg, fewer, who), LimitsFor(cfg, more, who), cfg, db, task, now);
    }
  }

  /** Retries, fan-out, concurrency or the hard budget refuse the dispatch. */
  predicate Refuses(cfg: Settings, rows: seq<BudgetRow>, who: Scope, db: Db, task: Id, now: Time)
    requires task < |db.tasks|
  {
    var limits := LimitsFor(cfg, rows, who);
    OverLimit(limits, LoadOf(cfg, db, task, limits.windowSeconds, now)).Some?
  }

  // ---- Circuit breakers -----------------------------------------------------------------------

  function ProfileOf(run: Run): string {
    OrElse(run.effectiveProfile, run.profile)
  }

  function StatusName(status: Status): string {
    match status
    case Pending => "pending"
    case Blocked => "blocked"
    case Dispatched => "dispatched"
    case InProgress => "in_progress"
    case Dispatching => "dispatching"
    case Running => "running"
    case AwaitingApproval => "awaiting_approval"
    case Completed => "completed"
    case Failed => "failed"
    case Cancelled => "cancelled"
    case TimedOut => "timed_out"
  }

  /** A breaker after one finished run; `limits` decides when it opens. */
  function Tripped(circuit: Circuit, run: Run, limits: ControlLimits, now: Time): Circuit {
    if run.status == Completed then FRESH_CIRCUIT
    else if run.status == Failed || run.status == TimedOut then
      var counted :=
        if circuit.lastError == run.errorCode then circuit.(failures := circuit.failures + 1)
        else circuit.(failures := 1, lastError := Some(OrElse(run.errorCode, StatusName(run.status))));
      if counted.failures >= limits.circuitThreshold then
        counted.(open := true, openedAt := Some(now),
                 resetAt := Some(now + Seconds(limits.circuitCooldownSeconds)))
      else counted
    else circuit
  }

  function RecordOutcome(cfg: Settings, cat: Catalog, db: Db, run: Id, actor: string, now: Time): Db
    requires run < |db.runs| && db.runs[run].task < |db.tasks|
  {
    var r := db.runs[run];
    var at := (r.worker, ProfileOf(r));
    var before := if at in db.circuits then db.circuits[at] else FRESH_CIRCUIT;
    var limits := LimitsFor(cfg, cat.budgets, ScopeOf(db.tasks[r.task], r.worker, ProfileOf(r)));
    var after := Tripped(before, r, limits, now);
    var trips := (r.status == Failed || r.status == TimedOut) && after.failures >= limits.circuitThreshold;
    db.(circuits := db.circuits[at := after],
        audit := if trips then db.audit + [Audit(actor, "circuit.opened", CircuitRow(at.0, at.1))] else db.audit)
  }

  // ---- Ledger ---------------------------------------------------------------------------------

  function PayloadOf(run: Run): LedgerPayload {
    LedgerPayload(run.usage, run.errorCode, run.details, run.status, ProfileOf(run))
  }

  function EntryFor(cfg: Settings, tasks: seq<Task>, id: Id, run: Run, now: Time): LedgerEntry
    requires run.task < |tasks|
  {
    var task := tasks[run.task];
    var exhausted := run.errorCode in {Some("quota_exhausted"), Some("rate_limited")};
    var at := run.finishedAt.GetOr(now);
    LedgerEntry(
      id, run.task, PayloadOf(run), cfg.project,
      OrElse(task.payload.workflowRef, "uncategorized"), task.requester, run.worker,
      run.profile, run.effectiveProfile, run.usage, exhausted,
      if exhausted then QuotaReset(run.details, at) else None,
      match run.finishedAt
      case None => None
      case Some(end) => Some(Max(0, end - run.startedAt.GetOr(run.createdAt))),
      run.status, Max(0, run.attempt - 1), now)
  }

  function QuotaReset(details: Details, now: Time): Option<Time> {
    match details.quotaResetAt
    case Some(at) => Some(at)
    case None =>
      match details.retryAfterSeconds
      case Some(n) => Some(now + Seconds(n))
      case None => None
  }

  datatype Filing = Filed(db: Db) | Conflict

  /** One entry per run: a second filing replays or, if the run's facts changed, conflicts. */
  function Ingest(cfg: Settings, db: Db, run: Id, actor: string, now: Time): Filing
    requires run < |db.runs| && db.runs[run].task < |db.tasks|
  {
    match Last(db.ledger, ForRun(run))
    case Some(e) => if db.ledger[e].payload == PayloadOf(db.runs[run]) then Filed(db) else Conflict
    case None =>
      Filed(db.(ledger := db.ledger + [EntryFor(cfg, db.tasks, run, db.runs[run], now)],
                audit := db.audit + [Audit(actor, "usage.ingested", LedgerRow(|db.ledger|))]))
  }
}
