/** When a dispatch is granted, check by check, and that nothing is dispatched past an open breaker. */
module Gate {
  import opened Tables
  import opened Records
  import opened Limits
  import opened Controls
  import opened Lifecycle
  import opened Invariants
  import opened Admission
  import opened Histories
  import opened Identity
  import opened Breakers
  import C = Circuits

  // ---- The checks -------------------------------------------------------------------------------

  datatype Check =
    | Absent | Closed | SelfReview | Unready | Busy
    | ProfileOff | ProfileDenied | Effort | OpenCircuit | Quota
    | Retries | FanOut | Concurrency | HardBudget

  /** Where the check stands in the service. */
  function Place(c: Check): nat {
    match c
    case Absent => 0
    case Closed => 1
    case SelfReview => 2
    case Unready => 3
    case Busy => 4
    case ProfileOff => 5
    case ProfileDenied => 6
    case Effort => 7
    case OpenCircuit => 8
    case Quota => 9
    case Retries => 10
    case FanOut => 11
    case Concurrency => 12
    case HardBudget => 13
  }

  function Code(c: Check): string {
    match c
    case Absent => "not_found"
    case Closed => "invalid_transition"
    case SelfReview => "self_review_denied"
    case Unready => "dependency_unmet"
    case Busy => "run_already_active"
    case ProfileOff => "execution_profile_unavailable"
    case ProfileDenied => "execution_profile_denied"
    case Effort => "reasoning_effort_denied"
    case OpenCircuit => "circuit_open"
    case Quota => "quota_exhausted"
    case Retries => "retry_limit_exceeded"
    case FanOut => "fan_out_limit_exceeded"
    case Concurrency => "concurrency_limit_exceeded"
    case HardBudget => "budget_hard_exceeded"
  }

  /** What a dispatch wants, of whom, and under which budgets and profiles. */
  datatype Wish = Wish(cfg: Settings, cat: Catalog, db: Db, task: Id, request: DispatchPayload, now: Time)

  function LimitsOf(w: Wish): ControlLimits
    requires w.task < |w.db.tasks|
  {
    LimitsFor(w.cfg, w.cat.budgets, ScopeOf(w.db.tasks[w.task], w.request.worker, w.request.profile))
  }

  /** The tokens the project used up in the window, and those the task expects to need. */
  function Projected(w: Wish): int
    requires w.task < |w.db.tasks|
  {
    Consumed(w.db.ledger, w.cfg.project, w.now - Seconds(LimitsOf(w).windowSeconds))
    + Integer(JsonAt(w.db.tasks[w.task].payload.budget, "estimated_tokens")).GetOr(0)
  }

  ghost predicate Hinders(w: Wish, c: Check) {
    if w.task >= |w.db.tasks| then c == Absent
    else
      var t, p := w.db.tasks[w.task], w.request;
      match c
      case Absent => false
      case Closed => t.status != Pending && t.status != Blocked && t.status != Failed && t.status != TimedOut
      case SelfReview => t.payload.independentReview && t.payload.reviewer == Some(p.worker)
      case Unready =>
        exists d :: d in t.payload.dependencies && (d >= |w.db.tasks| || w.db.tasks[d].status != Completed)
      case Busy => exists r :: 0 <= r < |w.db.runs| && w.db.runs[r].task == w.task && Active(w.db.runs[r].status)
      case ProfileOff => p.profile in w.cat.profiles && !w.cat.profiles[p.profile].enabled
      case ProfileDenied =>
        var slug := WithoutPrefix(p.worker, "agent:");
        slug in w.cat.allowed && p.profile !in w.cat.allowed[slug]
      case Effort => p.profile in w.cat.profiles && w.cat.profiles[p.profile].effort in {"xhigh", "max", "ultra"}
      case OpenCircuit => BreakerAt(w.db.circuits, (p.worker, p.profile)).open
      case Quota => exists e :: 0 <= e < |w.db.ledger| && Exhausts(w.db.ledger[e], w.cfg.project, w.now)
      case Retries => Count(w.db.runs, OfTask(w.task)) > LimitsOf(w).maxRetries
      case FanOut =>
        && t.payload.parent.Some?
        && Count(w.db.runs, ActiveChildOf(w.db.tasks, t.payload.parent.value)) >= LimitsOf(w).maxFanOut
      case Concurrency => Count(w.db.runs, IsActive()) >= LimitsOf(w).maxConcurrentRuns
      case HardBudget => LimitsOf(w).hardTokens.Some? && Projected(w) >= LimitsOf(w).hardTokens.value
  }

  /** The entry tells that the project's quota is exhausted until some time to come. */
  predicate Exhausts(e: LedgerEntry, project: string, now: Time) {
    e.project == project && e.quotaExhausted && e.quotaResetAt.Some? && now < e.quotaResetAt.value
  }

  /** `c` is the first check that the dispatch does not pass. */
  ghost predicate Stops(w: Wish, c: Check) {
    Hinders(w, c) && forall b: Check :: Place(b) < Place(c) ==> !Hinders(w, b)
  }

  ghost predicate Clear(w: Wish) {
    forall c: Check :: !Hinders(w, c)
  }

  /** The dispatch of the wish under a key that no run has. */
  ghost predicate Dispatches(w: Wish, actor: string, key: Key, step: Step) {
    && Last(w.db.runs, RunKeyed(key)).None?
    && step == DispatchTask(w.cfg, w.cat, w.db, w.task, actor, key, w.request, w.now)
  }

  lemma GateStopsEarly(w: Wish, c: Check)
    requires w.task < |w.db.tasks| && Stops(w, c) && Place(ProfileOff) <= Place(c) < Place(Retries)
    ensures Gatekeep(w.cfg, w.cat, w.db, w.task, w.request.worker, w.request.profile, w.now) == Deny(Code(c))
  {
    hide Stops, LimitsFor, LoadOf, OverLimit, Projected, Consumed;
    QuotaFound(w);
    Passed(w, c, ProfileOff);
    Passed(w, c, ProfileDenied);
    Passed(w, c, Effort);
    Passed(w, c, OpenCircuit);
  }

  lemma LoadStops(w: Wish, c: Check)
    requires w.task < |w.db.tasks| && Stops(w, c) && Place(c) >= Place(Retries)
    ensures OverLimit(LimitsOf(w), LoadOf(w.cfg, w.db, w.task, LimitsOf(w).windowSeconds, w.now)) == Some(Code(c))
  {
    hide Stops, LimitsFor, Consumed, Count;
    Passed(w, c, Retries);
    Passed(w, c, FanOut);
    Passed(w, c, Concurrency);
  }

  lemma GateStopsLate(w: Wish, c: Check)
    requires w.task < |w.db.tasks| && Stops(w, c) && Place(c) >= Place(Retries)
    ensures Gatekeep(w.cfg, w.cat, w.db, w.task, w.request.worker, w.request.profile, w.now) == Deny(Code(c))
  {
    hide Stops, Hinders, LimitsFor, LoadOf, OverLimit, Code, Gatekeep;
    LoadStops(w, c);
    Passed(w, c, ProfileOff);
    Passed(w, c, ProfileDenied);
    Passed(w, c, Effort);
    Passed(w, c, OpenCircuit);
    Passed(w, c, Quota);
    LoadDecides(w);
  }

  lemma GateStops(w: Wish, c: Check)
    requires w.task < |w.db.tasks| && Stops(w, c) && Place(c) >= Place(ProfileOff)
    ensures Gatekeep(w.cfg, w.cat, w.db, w.task, w.request.worker, w.request.profile, w.now) == Deny(Code(c))
  {
    hide Stops, Gatekeep, Code;
    if Place(c) < Place(Retries) {
      GateStopsEarly(w, c);
    } else {
      GateStopsLate(w, c);
    }
  }

  /** Past the checks of profile, breaker and quota, the limits decide. */
  lemma LoadDecides(w: Wish)
    requires w.task < |w.db.tasks|
    requires !Hinders(w, ProfileOff) && !Hinders(w, ProfileDenied) && !Hinders(w, Effort)
    requires !Hinders(w, OpenCircuit) && !Hinders(w, Quota)
    ensures Gatekeep(w.cfg, w.cat, w.db, w.task, w.request.worker, w.request.profile, w.now) ==
            match OverLimit(LimitsOf(w), LoadOf(w.cfg, w.db, w.task, LimitsOf(w).windowSeconds, w.now))
            case Some(code) => Deny(code)
            case None => Admit(LimitsOf(w).softTokens.Some? && Projected(w) >= LimitsOf(w).softTokens.value)
  {
    hide LimitsFor, OverLimit, Consumed, Count;
    QuotaFound(w);
  }

  lemma Passed(w: Wish, c: Check, b: Check)
    requires Stops(w, c)
    ensures Place(b) < Place(c) ==> !Hinders(w, b)
    ensures Hinders(w, c)
  {
    hide Hinders;
  }

  lemma QuotaFound(w: Wish)
    requires w.task < |w.db.tasks|
    ensures Has(w.db.ledger, Exhausted(w.cfg.project, w.now)) <==> Hinders(w, Quota)
  {
    if e :| 0 <= e < |w.db.ledger| && Exhausts(w.db.ledger[e], w.cfg.project, w.now) {
      assert Exhausted(w.cfg.project, w.now)(w.db.ledger[e]);
    }
  }

  lemma Unhindered(w: Wish, c: Check)
    requires Clear(w)
    ensures !Hinders(w, c)
  {
    hide Hinders;
  }

  lemma NothingOver(w: Wish)
    requires w.task < |w.db.tasks|
    requires !Hinders(w, Retries) && !Hinders(w, FanOut) && !Hinders(w, Concurrency) && !Hinders(w, HardBudget)
    ensures OverLimit(LimitsOf(w), LoadOf(w.cfg, w.db, w.task, LimitsOf(w).windowSeconds, w.now)).None?
  {
    hide LimitsFor, Consumed, Count;
  }

  lemma GatePasses(w: Wish)
    requires w.task < |w.db.tasks| && Clear(w)
    ensures Gatekeep(w.cfg, w.cat, w.db, w.task, w.request.worker, w.request.profile, w.now) ==
            Admit(LimitsOf(w).softTokens.Some? && Projected(w) >= LimitsOf(w).softTokens.value)
  {
    hide Clear, Hinders, LimitsFor, OverLimit, LoadOf, Gatekeep;
    Unhindered(w, ProfileOff);
    Unhindered(w, ProfileDenied);
    Unhindered(w, Effort);
    Unhindered(w, OpenCircuit);
    Unhindered(w, Quota);
    LoadDecides(w);
    Unhindered(w, Retries);
    Unhindered(w, FanOut);
    Unhindered(w, Concurrency);
    Unhindered(w, HardBudget);
    NothingOver(w);
  }

  lemma DependenciesOpen(deps: seq<Id>, tasks: seq<Task>)
    ensures Has(deps, Unmet(tasks)) <==> exists d :: d in deps && (d >= |tasks| || tasks[d].status != Completed)
  {
    if d :| d in deps && (d >= |tasks| || tasks[d].status != Completed) {
      var i :| 0 <= i < |deps| && deps[i] == d;
      assert Unmet(tasks)(deps[i]);
    }
    if Has(deps, Unmet(tasks)) {
      var i :| 0 <= i < |deps| && Unmet(tasks)(deps[i]);
      assert deps[i] in deps;
    }
  }

  lemma RunsActive(runs: seq<Run>, task: Id)
    ensures Has(runs, ActiveOf(task)) <==> exists r :: 0 <= r < |runs| && runs[r].task == task && Active(runs[r].status)
  {
    if r :| 0 <= r < |runs| && runs[r].task == task && Active(runs[r].status) {
      assert ActiveOf(task)(runs[r]);
    }
  }

  lemma EarlierChecks(w: Wish)
    requires w.task < |w.db.tasks|
    ensures Has(w.db.tasks[w.task].payload.dependencies, Unmet(w.db.tasks)) <==> Hinders(w, Unready)
    ensures Has(w.db.runs, ActiveOf(w.task)) <==> Hinders(w, Busy)
  {
    hide Has, Unmet, ActiveOf;
    DependenciesOpen(w.db.tasks[w.task].payload.dependencies, w.db.tasks);
    RunsActive(w.db.runs, w.task);
  }

  /** A refusal changes no table, but the gate's is audited, and a task with open dependencies becomes blocked. */
  ghost predicate LeftAlone(w: Wish, c: Check, actor: string, after: Db) {
    if c == Unready && w.task < |w.db.tasks| then
      after == w.db.(tasks := w.db.tasks[w.task := w.db.tasks[w.task].(status := Blocked)])
    else
      after == w.db.(audit := w.db.audit + (if Place(c) < Place(ProfileOff) then []
                                            else [Audit(actor, "dispatch.control_denied", TaskRow(w.task))]))
  }

  lemma EarlyRefusal(w: Wish, c: Check, actor: string, key: Key, step: Step)
    requires Dispatches(w, actor, key, step) && Stops(w, c) && Place(c) < Place(ProfileOff)
    ensures step.out == Refused(Code(c)) && LeftAlone(w, c, actor, step.db)
  {
    hide Stops, Gatekeep, Launch, Has, Unmet, ActiveOf;
    Passed(w, c, Closed);
    match c
    case Absent =>
    case Closed =>
    case SelfReview =>
    case Unready =>
      Passed(w, c, SelfReview);
      EarlierChecks(w);
    case Busy =>
      Passed(w, c, SelfReview);
      Passed(w, c, Unready);
      EarlierChecks(w);
  }

  /** Past the checks of the task, the gate decides. */
  lemma GateDecides(w: Wish, actor: string, key: Key, step: Step)
    requires Dispatches(w, actor, key, step)
    requires !Hinders(w, Absent) && !Hinders(w, Closed) && !Hinders(w, SelfReview)
    requires !Hinders(w, Unready) && !Hinders(w, Busy)
    ensures w.task < |w.db.tasks|
    ensures match Gatekeep(w.cfg, w.cat, w.db, w.task, w.request.worker, w.request.profile, w.now)
            case Deny(code) =>
              step == Step(Log(w.db, actor, "dispatch.control_denied", TaskRow(w.task)), Refused(code))
            case Admit(soft) =>
              var noted := if soft then Log(w.db, actor, "budget.soft_exceeded", TaskRow(w.task)) else w.db;
              step == Step(Launch(noted, w.task, actor, key, w.request, w.now), Ok(|w.db.runs|, false))
  {
    hide Gatekeep, Launch, Has, Unmet, ActiveOf;
    EarlierChecks(w);
  }

  lemma GateRefusal(w: Wish, c: Check, actor: string, key: Key, step: Step)
    requires Dispatches(w, actor, key, step) && Stops(w, c) && Place(c) >= Place(ProfileOff)
    ensures w.task < |w.db.tasks| && step.out == Refused(Code(c)) && LeftAlone(w, c, actor, step.db)
  {
    hide Stops, Dispatches, Hinders, Gatekeep, Launch, Code;
    Passed(w, c, Absent);
    Passed(w, c, Closed);
    Passed(w, c, SelfReview);
    Passed(w, c, Unready);
    Passed(w, c, Busy);
    GateDecides(w, actor, key, step);
    GateStops(w, c);
  }

  /** The first check that a dispatch does not pass is the one that refuses it. */
  lemma FirstCheckRefuses(w: Wish, c: Check, actor: string, key: Key, step: Step)
    requires Dispatches(w, actor, key, step) && Stops(w, c)
    ensures step.out == Refused(Code(c)) && LeftAlone(w, c, actor, step.db)
  {
    hide Dispatches, Stops, LeftAlone, Code;
    if Place(c) < Place(ProfileOff) {
      EarlyRefusal(w, c, actor, key, step);
    } else {
      GateRefusal(w, c, actor, key, step);
    }
  }

  /** The row of a run that was just dispatched. */
  ghost predicate Opened(w: Wish, key: Key, row: Run)
    requires w.task < |w.db.tasks|
  {
    var end, deadline := w.now + Seconds(w.request.timeoutSeconds), w.db.tasks[w.task].payload.deadline;
    && row.task == w.task && row.worker == w.request.worker && row.profile == w.request.profile
    && row.key == key && row.request == w.request && row.effectiveProfile.None?
    && row.status == (if w.request.requiresApproval then AwaitingApproval else Dispatching)
    && row.dispatchAttempts == 0 && row.nextAttemptAt == w.now && row.lease.None?
    && row.timeoutAt <= end && (deadline.Some? ==> row.timeoutAt <= deadline.value)
    && (row.timeoutAt == end || deadline == Some(row.timeoutAt))
    && row.startedAt.None? && row.finishedAt.None? && row.errorCode.None? && row.summary.None?
    && row.workerRunId.None? && row.usage == UNREPORTED && row.details == NO_DETAILS && row.createdAt == w.now
  }

  /** The dispatch appended its run and, if it asks for one, the approval, and moved its task on. */
  ghost predicate Launched(w: Wish, actor: string, key: Key, after: Db)
    requires w.task < |w.db.tasks|
  {
    && |after.runs| == |w.db.runs| + 1 && after.runs[..|w.db.runs|] == w.db.runs
    && Opened(w, key, after.runs[|w.db.runs|])
    && after.tasks == w.db.tasks[w.task := w.db.tasks[w.task].(
         status := if w.request.requiresApproval then AwaitingApproval else Records.Dispatched)]
    && after.approvals == w.db.approvals + (if w.request.requiresApproval then
         [Approval(|w.db.runs|, w.request.approvalAction, Undecided, actor,
                   w.now + Seconds(w.request.approvalTtlSeconds), None, None, None)] else [])
    && after == w.db.(runs := after.runs, tasks := after.tasks, approvals := after.approvals, audit := after.audit)
  }

  lemma LaunchOpens(w: Wish, noted: Db, actor: string, key: Key, after: Db)
    requires w.task < |w.db.tasks| && noted == w.db.(audit := noted.audit)
    requires after == Launch(noted, w.task, actor, key, w.request, w.now)
    ensures Launched(w, actor, key, after)
  {
    hide LastAttempt;
  }

  /** A dispatch that passes every check is granted. */
  lemma ClearIsGranted(w: Wish, actor: string, key: Key, step: Step)
    requires Dispatches(w, actor, key, step) && Clear(w)
    ensures w.task < |w.db.tasks| && step.out == Ok(|w.db.runs|, false) && Launched(w, actor, key, step.db)
  {
    hide Clear, Hinders, Dispatches, Gatekeep, Launch, Launched;
    Unhindered(w, Absent);
    Unhindered(w, Closed);
    Unhindered(w, SelfReview);
    Unhindered(w, Unready);
    Unhindered(w, Busy);
    GateDecides(w, actor, key, step);
    GatePasses(w);
    var soft := LimitsOf(w).softTokens.Some? && Projected(w) >= LimitsOf(w).softTokens.value;
    var noted := if soft then Log(w.db, actor, "budget.soft_exceeded", TaskRow(w.task)) else w.db;
    LaunchOpens(w, noted, actor, key, step.db);
  }

  /** Either every check is passed, or one of them is the first that is not. */
  lemma SomethingStopsOrNothing(w: Wish, n: nat) returns (c: Check)
    requires n <= 14 && forall b: Check :: Place(b) < 14 - n ==> !Hinders(w, b)
    ensures Clear(w) || Stops(w, c)
    decreases n
  {
    c := Absent;
    if n > 0 {
      if b: Check :| Place(b) == 14 - n && Hinders(w, b) {
        c := b;
      } else {
        c := SomethingStopsOrNothing(w, n - 1);
      }
    }
  }

  lemma CircuitCode(c: Check)
    ensures Code(c) == "circuit_open" <==> c == OpenCircuit
  {
  }

  /** A dispatch under a new key is granted if and only if it passes every check. */
  lemma GrantedExactly(w: Wish, actor: string, key: Key, step: Step)
    requires Dispatches(w, actor, key, step)
    ensures step.out.Ok? <==> Clear(w)
    ensures |step.db.runs| > |w.db.runs| <==> Clear(w)
  {
    hide Hinders, Dispatches, Launched, Opened;
    var c := SomethingStopsOrNothing(w, 14);
    if Clear(w) {
      ClearIsGranted(w, actor, key, step);
      LaunchedGrows(w, actor, key, step.db);
    } else {
      FirstCheckRefuses(w, c, actor, key, step);
    }
  }

  lemma LaunchedGrows(w: Wish, actor: string, key: Key, after: Db)
    requires w.task < |w.db.tasks| && Launched(w, actor, key, after)
    ensures |after.runs| == |w.db.runs| + 1
    ensures after.runs[|w.db.runs|].worker == w.request.worker && after.runs[|w.db.runs|].profile == w.request.profile
  {
  }

  /**
    An open breaker refuses the dispatch exactly when every check before it is passed; and whatever else is
    the case, a dispatch that appends a run has found its breaker closed, no exhausted quota still in force,
    and its profile enabled, allowed and of no forbidden effort.
   */
  lemma OpenBreakerRefusesExactly(w: Wish, actor: string, key: Key, step: Step)
    requires Dispatches(w, actor, key, step)
    ensures step.out == Refused("circuit_open") <==> Stops(w, OpenCircuit)
    ensures |step.db.runs| > |w.db.runs| ==>
              && !BreakerAt(w.db.circuits, (w.request.worker, w.request.profile)).open
              && (forall e :: 0 <= e < |w.db.ledger| ==> !Exhausts(w.db.ledger[e], w.cfg.project, w.now))
              && (w.request.profile in w.cat.profiles ==>
                    && w.cat.profiles[w.request.profile].enabled
                    && w.cat.profiles[w.request.profile].effort !in {"xhigh", "max", "ultra"})
              && (var slug := WithoutPrefix(w.request.worker, "agent:");
                  slug in w.cat.allowed ==> w.request.profile in w.cat.allowed[slug])
  {
    var c := SomethingStopsOrNothing(w, 14);
    GrantedExactly(w, actor, key, step);
    if Clear(w) {
      ClearMeans(w);
    } else {
      FirstCheckRefuses(w, c, actor, key, step);
      CircuitCode(c);
      StopsOnce(w, c);
    }
  }

  lemma StopsOnce(w: Wish, c: Check)
    requires Stops(w, c)
    ensures forall b: Check :: Stops(w, b) ==> b == c
  {
    hide Hinders;
  }

  lemma ClearMeans(w: Wish)
    requires Clear(w)
    ensures w.task < |w.db.tasks| && !Stops(w, OpenCircuit)
    ensures !Hinders(w, ProfileOff) && !Hinders(w, ProfileDenied) && !Hinders(w, Effort)
    ensures !Hinders(w, OpenCircuit) && !Hinders(w, Quota)
  {
    assert !Hinders(w, Absent);
  }

  /** A key that a run has is answered with that run if the request is the same, and never dispatched again. */
  lemma KnownKeyIsAnswered(w: Wish, actor: string, key: Key, r: Id, step: Step)
    requires Keyed(w.db) && r < |w.db.runs| && w.db.runs[r].key == key
    requires step == DispatchTask(w.cfg, w.cat, w.db, w.task, actor, key, w.request, w.now)
    ensures step.db == w.db
    ensures step.out == if w.db.runs[r].task == w.task && w.db.runs[r].request == w.request then Ok(r, true)
                        else Refused("idempotency_conflict")
  {
    assert RunKeyed(key)(w.db.runs[r]);
  }

  // ---- Histories ----------------------------------------------------------------------------------

  /** The breaker that a run's dispatch is checked against. */
  function Addressed(run: Run): At {
    (run.worker, run.profile)
  }

  lemma OnlyDispatchAppends(cfg: Settings, db: Db, cmd: Command, now: Time, after: Db)
    requires Inv(cfg, db) && after == Apply(cfg, db, cmd, now).db && |after.runs| > |db.runs|
    ensures cmd.Dispatch?
    ensures Dispatches(Wish(cfg, cmd.cat, db, cmd.task, cmd.request, now), cmd.actor, cmd.key, Apply(cfg, db, cmd, now))
  {
    hide Inv, DispatchNew;
    if cmd.Create? {
      CreateAppends(db, cmd.actor, cmd.key, cmd.payload, Apply(cfg, db, cmd, now));
    } else if !cmd.Dispatch? {
      OthersCarry(cfg, db, cmd, now, Apply(cfg, db, cmd, now));
    }
  }

  lemma StepKeepsClosed(cfg: Settings, db: Db, cmd: Command, now: Time, after: Db, at: At)
    requires Inv(cfg, db) && after == Apply(cfg, db, cmd, now).db && BreakerAt(db.circuits, at).open
    ensures |db.runs| <= |after.runs| && forall r :: |db.runs| <= r < |after.runs| ==> Addressed(after.runs[r]) != at
    ensures forall r :: 0 <= r < |db.runs| ==> Addressed(after.runs[r]) == Addressed(db.runs[r])
  {
    hide Inv, Apply, Dispatches;
    ApplyExtends(cfg, db, cmd, now, Apply(cfg, db, cmd, now));
    if |after.runs| > |db.runs| {
      OnlyDispatchAppends(cfg, db, cmd, now, after);
      var w := Wish(cfg, cmd.cat, db, cmd.task, cmd.request, now);
      OpenBreakerRefusesExactly(w, cmd.actor, cmd.key, Apply(cfg, db, cmd, now));
      GrantedExactly(w, cmd.actor, cmd.key, Apply(cfg, db, cmd, now));
      ClearIsGranted(w, cmd.actor, cmd.key, Apply(cfg, db, cmd, now));
      LaunchedGrows(w, cmd.actor, cmd.key, after);
    }
  }

  lemma {:induction false} MarksExtend(cfg: Settings, past: seq<Event>, future: seq<Event>, at: At)
    ensures Marks(cfg, past, at) <= Marks(cfg, past + future, at)
  {
    hide Replay, MarksOf;
    if future == [] {
      assert past + future == past;
    } else {
      assert (past + future)[..|past + future| - 1] == past + future[..|future| - 1];
      MarksExtend(cfg, past, future[..|future| - 1], at);
    }
  }

  lemma StaysOpen(cfg: Settings, past: seq<Event>, future: seq<Event>, at: At, k: nat)
    requires Guarded(cfg, past + future)
    requires C.TripsAt(Marks(cfg, past, at), k) && C.Uncleared(Marks(cfg, past + future, at), k)
    ensures BreakerAt(Replay(cfg, past + future).circuits, at).open
  {
    hide Guarded, Replay, Marks;
    var marks := Marks(cfg, past + future, at);
    MarksExtend(cfg, past, future, at);
    assert marks[..k + 1] == Marks(cfg, past, at)[..k + 1];
    assert C.TripsAt(marks, k);
    BreakersOpenExactly(cfg, past + future, at, marks);
  }

  /**
    After a verdict that reached the threshold no call adds a run for that worker and profile, until a
    success or a reset clears the breaker.
   */
  lemma {:induction false} NothingPastAnOpenBreaker(
    cfg: Settings, past: seq<Event>, future: seq<Event>, at: At, k: nat, r: Id)
    requires Guarded(cfg, past) && Guarded(cfg, past + future)
    requires C.TripsAt(Marks(cfg, past, at), k) && C.Uncleared(Marks(cfg, past + future, at), k)
    ensures |Replay(cfg, past).runs| <= |Replay(cfg, past + future).runs|
    ensures |Replay(cfg, past).runs| <= r < |Replay(cfg, past + future).runs| ==>
              Addressed(Replay(cfg, past + future).runs[r]) != at
  {
    hide Inv, Apply, Marks;
    if future == [] {
      assert past + future == past;
    } else {
      var init, last := future[..|future| - 1], future[|future| - 1];
      ReplaySplit(cfg, past, future);
      MarksExtend(cfg, past + init, [last], at);
      assert past + init + [last] == past + future;
      NothingPastAnOpenBreaker(cfg, past, init, at, k, r);
      StaysOpen(cfg, past, init, at, k);
      EveryHistoryIsSafe(cfg, past + init);
      StepKeepsClosed(cfg, Replay(cfg, past + init), last.cmd, last.now, Replay(cfg, past + future), at);
    }
  }
}
