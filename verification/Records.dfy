/**
  The durable rows of the control plane. A table is a sequence of rows, a row's id is its index,
  and `created_at` order is index order. A row holds the request payload itself where the program
  stores that payload's hash.
 */
module Records {
  import opened Tables

  type Id = nat

  /** Milliseconds since some epoch. */
  type Time = int

  function Seconds(n: int): Time {
    1000 * n
  }

  /** Task and run rows share one vocabulary of states. */
  datatype Status =
    | Pending | Blocked | Dispatched | InProgress
    | Dispatching | Running | AwaitingApproval
    | Completed | Failed | Cancelled | TimedOut

  predicate Active(status: Status) {
    status in {Dispatching, Running, AwaitingApproval}
  }

  predicate Terminal(status: Status) {
    status in {Completed, Failed, Cancelled, TimedOut}
  }

  /** The lifecycle's permitted moves of a run. */
  predicate MayMove(from: Status, to: Status) {
    match from
    case Dispatching => to in {Running, Failed, Cancelled, TimedOut}
    case Running => to in {AwaitingApproval, Completed, Failed, Cancelled, TimedOut}
    case AwaitingApproval => to in {Dispatching, Failed, Cancelled, TimedOut}
    case _ => false
  }

  /** Idempotency keys; the derived ones are functions of row ids. */
  datatype Key =
    | Named(name: string)
    | WorkflowTask(continuation: Id)
    | WorkflowDispatch(continuation: Id)
    | CancelRejection(approval: Id, cancel: Key, task: Id)

  datatype Json = Null | Bool(b: bool) | Int(n: int) | Str(s: string)

  type Budget = map<string, Json>

  function JsonAt(budget: Budget, field: string): Json {
    if field in budget then budget[field] else Null
  }

  /** A non-negative JSON integer; booleans do not count as integers. */
  function Integer(value: Json): Option<int> {
    match value
    case Int(n) => if n >= 0 then Some(n) else None
    case _ => None
  }

  datatype TaskPayload = TaskPayload(
    parent: Option<Id>,
    workflowRef: Option<string>,
    assignee: Option<string>,
    reviewer: Option<string>,
    independentReview: bool,
    priority: int,
    objective: string,
    acceptance: seq<string>,
    budget: Budget,
    references: seq<string>,
    dependencies: seq<Id>,
    deadline: Option<Time>)

  datatype Task = Task(
    requester: string,
    key: Key,
    payload: TaskPayload,
    status: Status,
    cancelKey: Option<string>)

  datatype DispatchPayload = DispatchPayload(
    worker: string,
    profile: string,
    timeoutSeconds: int,
    requiresApproval: bool,
    approvalAction: string,
    approvalTtlSeconds: int)

  datatype Lease = Lease(owner: string, acquired: Time, expires: Time, heartbeat: Time)

  datatype Token = Input | Output | Reasoning | CacheRead | CacheWrite

  const TOKENS: seq<Token> := [Input, Output, Reasoning, CacheRead, CacheWrite]

  /** Worker-reported consumption; an unknown count is `None`, never zero. */
  datatype Usage = Usage(
    input: Option<nat>,
    output: Option<nat>,
    reasoning: Option<nat>,
    cacheRead: Option<nat>,
    cacheWrite: Option<nat>,
    apiCalls: Option<nat>,
    actualCost: Option<real>)
  {
    function Get(token: Token): Option<nat> {
      match token
      case Input => input
      case Output => output
      case Reasoning => reasoning
      case CacheRead => cacheRead
      case CacheWrite => cacheWrite
    }
  }

  const UNREPORTED: Usage := Usage(None, None, None, None, None, None, None)

  datatype Handoff = Handoff(outcome: string, note: string)

  /** A hand-over as stored on its run and in its comment. */
  datatype StoredHandoff = StoredHandoff(handoff: Handoff, run: Id, comment: Id)

  /** `error_details`: the worker's report, its quota hints and the agent's hand-over. */
  datatype Details = Details(
    report: string,
    quotaResetAt: Option<Time>,
    retryAfterSeconds: Option<nat>,
    handoff: Option<StoredHandoff>)

  const NO_DETAILS: Details := Details("", None, None, None)

  datatype Run = Run(
    task: Id,
    attempt: int,
    worker: string,
    profile: string,
    effectiveProfile: Option<string>,
    key: Key,
    request: DispatchPayload,
    status: Status,
    dispatchAttempts: nat,
    nextAttemptAt: Time,
    lease: Option<Lease>,
    timeoutAt: Time,
    startedAt: Option<Time>,
    finishedAt: Option<Time>,
    errorCode: Option<string>,
    summary: Option<string>,
    workerRunId: Option<string>,
    usage: Usage,
    details: Details,
    createdAt: Time)

  datatype Verdict = Undecided | Approved | Rejected | Expired

  datatype Approval = Approval(
    run: Id,
    action: string,
    verdict: Verdict,
    requestedBy: string,
    expiresAt: Time,
    decidedBy: Option<string>,
    reason: Option<string>,
    decisionKey: Option<Key>)

  datatype Comment = Comment(task: Id, actor: string, key: string, handoff: StoredHandoff)

  datatype LedgerPayload = LedgerPayload(
    usage: Usage,
    errorCode: Option<string>,
    details: Details,
    status: Status,
    profile: string)

  datatype LedgerEntry = LedgerEntry(
    run: Id,
    task: Id,
    payload: LedgerPayload,
    project: string,
    category: string,
    requester: string,
    executor: string,
    requestedProfile: string,
    effectiveProfile: Option<string>,
    usage: Usage,
    quotaExhausted: bool,
    quotaResetAt: Option<Time>,
    durationMs: Option<int>,
    outcome: Status,
    retryNumber: int,
    createdAt: Time)

  datatype Circuit = Circuit(
    open: bool,
    failures: int,
    lastError: Option<string>,
    openedAt: Option<Time>,
    resetAt: Option<Time>)

  const FRESH_CIRCUIT: Circuit := Circuit(false, 0, None, None, None)

  datatype Subject =
    | TaskRow(task: Id)
    | RunRow(run: Id)
    | ApprovalRow(approval: Id)
    | LedgerRow(entry: Id)
    | CircuitRow(worker: string, profile: string)

  datatype Audit = Audit(actor: string, event: string, subject: Subject)

  /** One committed state of the lifecycle tables. */
  datatype Db = Db(
    tasks: seq<Task>,
    runs: seq<Run>,
    approvals: seq<Approval>,
    comments: seq<Comment>,
    ledger: seq<LedgerEntry>,
    circuits: map<(string, string), Circuit>,
    audit: seq<Audit>)

  const EMPTY: Db := Db([], [], [], [], [], map[], [])

  /** What a service call reports; a refusal is the code of the error raised. */
  datatype Outcome = Ok(id: Id, replayed: bool) | Refused(code: string)

  datatype Step = Step(db: Db, out: Outcome)

  datatype Settings = Settings(
    project: string,
    windowSeconds: int,
    softTokens: int,
    hardTokens: int,
    maxConcurrentRuns: int,
    maxFanOut: int,
    maxRetries: int,
    circuitThreshold: int,
    circuitCooldownSeconds: int,
    workflowBatch: nat,
    workflowMaxDepth: int,
    workflowTimeoutSeconds: int)

  datatype Limit =
    | WindowSeconds | SoftTokens | HardTokens | MaxConcurrentRuns
    | MaxFanOut | MaxRetries | CircuitThreshold | CircuitCooldown

  /** A row of the budgets table; a limit absent from the map is NULL. */
  datatype BudgetRow = BudgetRow(scope: string, scopeKey: string, enabled: bool, limits: map<Limit, int>)

  datatype Profile = Profile(enabled: bool, effort: string)

  /**
    The administrative tables a dispatch reads. They may be different at every step.
    `allowed` holds the profile allow-list of each active agent that declares one.
   */
  datatype Catalog = Catalog(
    budgets: seq<BudgetRow>,
    profiles: map<string, Profile>,
    allowed: map<string, set<string>>)

  function WithoutPrefix(s: string, prefix: string): string {
    if prefix <= s then s[|prefix|..] else s
  }

  /** Python's `a or b` on an optional string. */
  function OrElse(s: Option<string>, default: string): string {
    match s
    case Some(v) => if v == "" then default else v
    case None => default
  }

  function Min(a: int, b: int): int {
    if b < a then b else a
  }

  function Max(a: int, b: int): int {
    if a < b then b else a
  }
}
