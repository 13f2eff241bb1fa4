/** Histories that lead into the states in which discovery is held up for good. */
module Stalls {
  import opened Tables
  import opened Records
  import opened Limits
  import opened Controls
  import opened Lifecycle
  import opened Preservation
  import opened Workflow
  import opened Coordination
  import opened Termination
  import opened LateApproval
  import opened Passes

  function Configured(batch: nat): Settings {
    DEFAULTS.(workflowBatch := batch)
  }

  const AUTO: Budget := map["workflow_auto_continue" := Bool(true)]

  function Enrolled(parent: Option<Id>): TaskPayload {
    TaskPayload(parent, Some("flow"), None, None, false, 50, "objective", ["criterion"], AUTO, [], [], None)
  }

  const PLAIN: DispatchPayload := DispatchPayload("agent:developer", "high", 3600, false, "dispatch", 900)

  function Fresh(n: nat): Key {
    Named(seq(n, _ => 'x'))
  }

  lemma FreshKeys(m: nat, n: nat)
    requires m != n
    ensures Fresh(m) != Fresh(n)
  {
    assert |Fresh(m).name| == m && |Fresh(n).name| == n;
  }

  // ---- One task, run to its end -----------------------------------------------------------------

  /** Nothing runs, waits or was used up, and every breaker is fresh. */
  ghost predicate Calm(db: Db) {
    && (forall r :: 0 <= r < |db.runs| ==> Terminal(db.runs[r].status) && db.runs[r].task < |db.tasks|)
    && (forall e :: 0 <= e < |db.ledger| ==> Idle(db.ledger[e]) && db.ledger[e].run < |db.runs|)
    && db.approvals == [] && forall at :: at in db.circuits ==> db.circuits[at] == FRESH_CIRCUIT
  }

  predicate Idle(e: LedgerEntry) {
    e.usage == UNREPORTED && !e.quotaExhausted
  }

  lemma {:induction false} NothingConsumed(ledger: seq<LedgerEntry>, project: string, cutoff: Time)
    requires forall e :: 0 <= e < |ledger| ==> Idle(ledger[e])
    ensures Consumed(ledger, project, cutoff) == 0
  {
    if ledger != [] {
      assert Idle(ledger[|ledger| - 1]);
      NothingConsumed(ledger[..|ledger| - 1], project, cutoff);
    }
  }

  lemma DefaultLimits(batch: nat, who: Scope)
    requires who.budget == AUTO
    ensures LimitsFor(Configured(batch), [], who)
         == ControlLimits(86400, Some(5_000_000), Some(10_000_000), 1, 3, 1, 3, 3600)
  {
  }

  /** An enrolled task that was never dispatched is admitted. */
  lemma Admitted(batch: nat, db: Db, t: Id)
    requires Calm(db) && t < |db.tasks| && db.tasks[t].payload.budget == AUTO
    requires forall r :: 0 <= r < |db.runs| ==> db.runs[r].task != t
    ensures Gatekeep(Configured(batch), NO_BUDGETS, db, t, "agent:developer", "high", 0) == Admit(false)
  {
    hide LimitsFor;
    var cfg, task := Configured(batch), db.tasks[t];
    DefaultLimits(batch, ScopeOf(task, "agent:developer", "high"));
    NothingConsumed(db.ledger, cfg.project, 0 - Seconds(86400));
    CountZero(db.runs, OfTask(t));
    CountZero(db.runs, IsActive());
    if task.payload.parent.Some? {
      CountZero(db.runs, ActiveChildOf(db.tasks, task.payload.parent.value));
    }
    assert !Has(db.ledger, Exhausted(cfg.project, 0)) by {
      assert forall e :: 0 <= e < |db.ledger| ==> Idle(db.ledger[e]);
    }
  }

  /** The task created as number `t`. */
  function TaskAt(t: Id, payload: TaskPayload, status: Status): Task {
    Task("user:owner", Fresh(t), payload, status, None)
  }

  predicate Plainly(t: Id, payload: TaskPayload) {
    payload == Enrolled(payload.parent) && (payload.parent.Some? ==> payload.parent.value < t)
  }

  lemma Created(db: Db, t: Id, payload: TaskPayload, after: Db)
    requires t == |db.tasks| && Plainly(t, payload) && Last(db.tasks, TaskKeyed(Fresh(t))).None?
    requires after == CreateTask(db, "user:owner", Fresh(t), payload).db
    ensures after == db.(tasks := db.tasks + [TaskAt(t, payload, Pending)], audit := after.audit)
  {
  }

  lemma Dispatched(batch: nat, db: Db, t: Id, payload: TaskPayload, row: Run, after: Db)
    requires Calm(db) && t + 1 == |db.tasks| && Plainly(t, payload) && db.tasks[t] == TaskAt(t, payload, Pending)
    requires forall r :: 0 <= r < |db.runs| ==> db.runs[r].task != t
    requires Last(db.runs, RunKeyed(Fresh(t))).None? && row == NewRun(db, t, Fresh(t), PLAIN, 0)
    requires after == DispatchTask(Configured(batch), NO_BUDGETS, db, t, "user:owner", Fresh(t), PLAIN, 0).db
    ensures after == db.(runs := db.runs + [row], tasks := after.tasks, audit := after.audit)
    ensures after.tasks == db.tasks[t := TaskAt(t, payload, Records.Dispatched)]
  {
    hide Gatekeep, NewRun, Calm;
    Admitted(batch, db, t);
  }

  /** A dispatched run on its own: the last row of its table, with nothing filed for it. */
  ghost predicate Under(db: Db, t: Id, r: Id, payload: TaskPayload, status: Status, taskStatus: Status) {
    && t + 1 == |db.tasks| && r + 1 == |db.runs| && db.approvals == []
    && db.tasks[t] == TaskAt(t, payload, taskStatus)
    && db.runs[r].task == t && db.runs[r].status == status && db.runs[r].details == NO_DETAILS
    && db.runs[r].usage == UNREPORTED && db.runs[r].key == Fresh(t)
    && db.runs[r].worker == "agent:developer" && db.runs[r].profile == "high" && db.runs[r].effectiveProfile.None?
    && (forall e :: 0 <= e < |db.ledger| ==> Idle(db.ledger[e]) && db.ledger[e].run < r)
    && (forall i :: 0 <= i < r ==> Terminal(db.runs[i].status) && db.runs[i].task < t)
    && forall at :: at in db.circuits ==> db.circuits[at] == FRESH_CIRCUIT
  }

  /** The tables but for their last task and run. */
  ghost predicate SameBefore(a: Db, b: Db, t: Id, r: Id) {
    t <= |a.tasks| && t <= |b.tasks| && r <= |a.runs| && r <= |b.runs| && a.tasks[..t] == b.tasks[..t]
    && a.runs[..r] == b.runs[..r]
  }

  lemma Started(cfg: Settings, db: Db, t: Id, r: Id, payload: TaskPayload, after: Db)
    requires Under(db, t, r, payload, Dispatching, Records.Dispatched)
    requires after == TransitionRun(cfg, NO_BUDGETS, db, r, Running, "dispatcher", None, None, 0).db
    ensures Under(after, t, r, payload, Running, InProgress) && SameBefore(db, after, t, r)
  {
  }

  lemma Finished(
    batch: nat, db: Db, t: Id, r: Id, payload: TaskPayload, to: Status, code: Option<string>, after: Db)
    requires Under(db, t, r, payload, Running, InProgress) && Plainly(t, payload)
    requires (to == Completed && code.None?) || (to == Failed && code == Some("boom"))
    requires after == TransitionRun(Configured(batch), NO_BUDGETS, db, r, to, "dispatcher", code, None, 0).db
    ensures SameBefore(db, after, t, r) && |after.tasks| == t + 1 && |after.runs| == r + 1
    ensures after.tasks[t] == TaskAt(t, payload, to)
    ensures after.runs[r].task == t && after.runs[r].status == to && after.runs[r].key == Fresh(t)
    ensures after.runs[r].worker == "agent:developer" && after.runs[r].profile == "high"
    ensures to == Completed ==> Calm(after)
  {
    hide LimitsFor, RecordOutcome, Restated, EntryFor;
    var moved := Restated(db, r, to, "dispatcher", code, None, 0);
    EndRestated(db, t, r, payload, to, code, moved);
    EntryIsIdle(Configured(batch), moved.tasks, r, moved.runs[r]);
    assert Last(moved.ledger, ForRun(r)).None?;
    RecordOutcomeFrame(Configured(batch), NO_BUDGETS, moved, r, "dispatcher", 0);
    if to == Completed {
      FreshAfterSuccess(Configured(batch), moved, r);
    }
  }

  lemma EndRestated(db: Db, t: Id, r: Id, payload: TaskPayload, to: Status, code: Option<string>, moved: Db)
    requires Under(db, t, r, payload, Running, InProgress)
    requires (to == Completed && code.None?) || (to == Failed && code == Some("boom"))
    requires moved == Restated(db, r, to, "dispatcher", code, None, 0)
    ensures moved == db.(tasks := moved.tasks, runs := moved.runs, audit := moved.audit)
    ensures moved.tasks == db.tasks[t := TaskAt(t, payload, to)] && moved.runs == db.runs[r := moved.runs[r]]
    ensures moved.runs[r] == db.runs[r].(status := to, errorCode := code, summary := None,
              startedAt := moved.runs[r].startedAt, finishedAt := moved.runs[r].finishedAt, lease := None)
  {
  }

  lemma EntryIsIdle(cfg: Settings, tasks: seq<Task>, r: Id, row: Run)
    requires row.task < |tasks| && row.usage == UNREPORTED && row.errorCode in {None, Some("boom")}
    ensures Idle(EntryFor(cfg, tasks, r, row, 0)) && EntryFor(cfg, tasks, r, row, 0).run == r
  {
  }

  lemma FreshAfterSuccess(cfg: Settings, db: Db, r: Id)
    requires r < |db.runs| && db.runs[r].task < |db.tasks| && db.runs[r].status == Completed
    requires forall at :: at in db.circuits ==> db.circuits[at] == FRESH_CIRCUIT
    ensures var after := RecordOutcome(cfg, NO_BUDGETS, db, r, "dispatcher", 0);
            forall at :: at in after.circuits ==> after.circuits[at] == FRESH_CIRCUIT
  {
    hide LimitsFor;
  }

  function Code(to: Status): Option<string> {
    if to == Failed then Some("boom") else None
  }

  /** A task is created, dispatched, started and ended, and its terminal event is recorded. */
  function Turn(t: Id, r: Id, payload: TaskPayload, to: Status): seq<Entry> {
    [Entry(Outside(Create("user:owner", Fresh(t), payload)), 0),
     Entry(Outside(Dispatch(NO_BUDGETS, t, "user:owner", Fresh(t), PLAIN)), 0),
     Entry(Outside(Move(NO_BUDGETS, r, Running, "dispatcher", None, None)), 0),
     Entry(Outside(Move(NO_BUDGETS, r, to, "dispatcher", Code(to), None)), 0),
     Entry(Record(RunEvent(r, "run." + StatusName(to), true)), 0)]
  }

  /** What a turn adds to the tables. */
  ghost predicate Turned(db: Db, end: Db, t: Id, r: Id, payload: TaskPayload, to: Status) {
    && |end.tasks| == t + 1 && |end.runs| == r + 1 && SameBefore(db, end, t, r)
    && end.tasks[t] == TaskAt(t, payload, to)
    && end.runs[r].task == t && end.runs[r].status == to && end.runs[r].key == Fresh(t)
    && end.runs[r].worker == "agent:developer" && end.runs[r].profile == "high"
    && (to == Completed ==> Calm(end))
  }

  ghost predicate Ready(db: Db, t: Id, r: Id, payload: TaskPayload, to: Status) {
    && Calm(db) && t == |db.tasks| && r == |db.runs| && Plainly(t, payload) && (to == Completed || to == Failed)
    && Last(db.tasks, TaskKeyed(Fresh(t))).None? && Last(db.runs, RunKeyed(Fresh(t))).None?
  }

  lemma TurnOfTables(
    batch: nat, db: Db, t: Id, r: Id, payload: TaskPayload, to: Status, a: Db, b: Db, c: Db, end: Db)
    requires Ready(db, t, r, payload, to)
    requires a == CreateTask(db, "user:owner", Fresh(t), payload).db
    requires b == DispatchTask(Configured(batch), NO_BUDGETS, a, t, "user:owner", Fresh(t), PLAIN, 0).db
    requires c == TransitionRun(Configured(batch), NO_BUDGETS, b, r, Running, "dispatcher", None, None, 0).db
    requires end == TransitionRun(Configured(batch), NO_BUDGETS, c, r, to, "dispatcher", Code(to), None, 0).db
    ensures |b.runs| == r + 1 && Turned(db, end, t, r, payload, to)
  {
    hide CreateTask, DispatchTask, TransitionRun, Ready, Under;
    Launched(batch, db, t, r, payload, to, a, b);
    assert |b.runs| == r + 1 && Plainly(t, payload) && (to == Completed || to == Failed) by {
      LaunchedRun(b, db, t, r, payload, to);
    }
    Started(Configured(batch), b, t, r, payload, c);
    Finished(batch, c, t, r, payload, to, Code(to), end);
  }

  lemma LaunchedRun(b: Db, db: Db, t: Id, r: Id, payload: TaskPayload, to: Status)
    requires Under(b, t, r, payload, Dispatching, Records.Dispatched) && Ready(db, t, r, payload, to)
    ensures |b.runs| == r + 1 && Plainly(t, payload) && (to == Completed || to == Failed)
  {
  }

  lemma Launched(batch: nat, db: Db, t: Id, r: Id, payload: TaskPayload, to: Status, a: Db, b: Db)
    requires Ready(db, t, r, payload, to)
    requires a == CreateTask(db, "user:owner", Fresh(t), payload).db
    requires b == DispatchTask(Configured(batch), NO_BUDGETS, a, t, "user:owner", Fresh(t), PLAIN, 0).db
    ensures Under(b, t, r, payload, Dispatching, Records.Dispatched) && SameBefore(db, b, t, r)
  {
    hide CreateTask, DispatchTask, Fresh;
    Created(db, t, payload, a);
    Dispatched(batch, a, t, payload, NewRun(a, t, Fresh(t), PLAIN, 0), b);
    assert a.tasks[..t] == db.tasks && b.tasks[..t] == a.tasks[..t];
  }

  lemma UnrollFive(cfg: Settings, flow: Flow, h: seq<Entry>, a: Flow, b: Flow, c: Flow, d: Flow, end: Flow)
    requires |h| == 5 && a == Advance(cfg, flow, h[0].commit, h[0].now) && b == Advance(cfg, a, h[1].commit, h[1].now)
    requires c == Advance(cfg, b, h[2].commit, h[2].now) && d == Advance(cfg, c, h[3].commit, h[3].now)
    requires end == Advance(cfg, d, h[4].commit, h[4].now)
    requires Permitted(flow, h[0].commit, h[0].now) && Permitted(a, h[1].commit, h[1].now)
    requires Permitted(b, h[2].commit, h[2].now) && Permitted(c, h[3].commit, h[3].now)
    requires Permitted(d, h[4].commit, h[4].now)
    ensures Unroll(cfg, flow, h) == end && Admissible(cfg, flow, h)
  {
    hide Advance, Permitted;
    var four, three, two, one := h[..4], h[..3], h[..2], h[..1];
    assert four[..3] == three && three[..2] == two && two[..1] == one && one[..0] == [];
    assert Unroll(cfg, flow, one) == a && Admissible(cfg, flow, one);
    assert Unroll(cfg, flow, two) == b && Admissible(cfg, flow, two);
    assert Unroll(cfg, flow, three) == c && Admissible(cfg, flow, three);
    assert Unroll(cfg, flow, four) == d && Admissible(cfg, flow, four);
  }

  lemma OneTurn(batch: nat, flow: Flow, t: Id, r: Id, payload: TaskPayload, to: Status) returns (end: Flow)
    requires Ready(flow.db, t, r, payload, to)
    ensures end == Unroll(Configured(batch), flow, Turn(t, r, payload, to))
    ensures Admissible(Configured(batch), flow, Turn(t, r, payload, to))
    ensures Turned(flow.db, end.db, t, r, payload, to)
    ensures end == flow.(db := end.db, events := flow.events + [RunEvent(r, "run." + StatusName(to), true)])
  {
    hide CreateTask, DispatchTask, TransitionRun, Fresh, Ready, Turned, StatusName;
    var cfg, h := Configured(batch), Turn(t, r, payload, to);
    var a := flow.(db := CreateTask(flow.db, "user:owner", Fresh(t), payload).db);
    var b := a.(db := DispatchTask(cfg, NO_BUDGETS, a.db, t, "user:owner", Fresh(t), PLAIN, 0).db);
    var c := b.(db := TransitionRun(cfg, NO_BUDGETS, b.db, r, Running, "dispatcher", None, None, 0).db);
    var d := c.(db := TransitionRun(cfg, NO_BUDGETS, c.db, r, to, "dispatcher", Code(to), None, 0).db);
    TurnOfTables(batch, flow.db, t, r, payload, to, a.db, b.db, c.db, d.db);
    end := Advance(cfg, d, h[4].commit, 0);
    TurnedAddsARun(flow.db, d.db, t, r, payload, to);
    FreshIsNamed(t);
    UnrollFive(cfg, flow, h, a, b, c, d, end);
  }

  lemma FreshIsNamed(t: Id)
    ensures Fresh(t).Named?
  {
  }

  lemma TurnedAddsARun(db: Db, end: Db, t: Id, r: Id, payload: TaskPayload, to: Status)
    requires Turned(db, end, t, r, payload, to)
    ensures r < |end.runs|
  {
  }

  // ---- Events behind four batches of triggers -----------------------------------------------------

  /** `n` tasks of workflows without a parent, each run to completion. */
  function Busy(n: nat): seq<Entry> {
    if n == 0 then [] else Busy(n - 1) + Turn(n - 1, n - 1, Enrolled(None), Completed)
  }

  ghost predicate Quiet(flow: Flow, n: nat) {
    && Calm(flow.db) && |flow.db.tasks| == |flow.db.runs| == |flow.events| == n
    && flow.continuations == [] && flow.skips == []
    && forall i :: 0 <= i < n ==>
         && flow.db.tasks[i].payload == Enrolled(None) && flow.db.tasks[i].key == Fresh(i)
         && flow.db.runs[i].task == i && flow.db.runs[i].key == Fresh(i)
         && flow.events[i].run == i && flow.events[i].terminal
  }

  lemma QuietIsReady(flow: Flow, n: nat, to: Status)
    requires Quiet(flow, n) && (to == Completed || to == Failed)
    ensures Ready(flow.db, n, n, Enrolled(None), to)
  {
    forall i | 0 <= i < n ensures Fresh(i) != Fresh(n) {
      FreshKeys(i, n);
    }
  }

  lemma QuietStays(flow: Flow, n: nat, end: Flow)
    requires Quiet(flow, n) && Turned(flow.db, end.db, n, n, Enrolled(None), Completed)
    requires end == flow.(db := end.db, events := flow.events + [RunEvent(n, "run." + StatusName(Completed), true)])
    ensures Quiet(end, n + 1)
  {
    hide Fresh, Calm;
    forall i | 0 <= i < n ensures end.db.tasks[i] == flow.db.tasks[i] && end.db.runs[i] == flow.db.runs[i] {
      assert end.db.tasks[..n][i] == end.db.tasks[i] && end.db.runs[..n][i] == end.db.runs[i];
    }
  }

  lemma NothingIsQuiet(cfg: Settings)
    ensures Unroll(cfg, QUIET_START, []) == QUIET_START && Admissible(cfg, QUIET_START, []) && Quiet(QUIET_START, 0)
  {
  }

  lemma {:induction false} BusyIsQuiet(batch: nat, n: nat)
    ensures Admissible(Configured(batch), QUIET_START, Busy(n))
    ensures Quiet(Unroll(Configured(batch), QUIET_START, Busy(n)), n)
  {
    hide Quiet, Ready, Turned, Turn, Unroll, Admissible;
    if n == 0 {
      NothingIsQuiet(Configured(batch));
    } else {
      BusyIsQuiet(batch, n - 1);
      var cfg := Configured(batch);
      var flow := Unroll(cfg, QUIET_START, Busy(n - 1));
      QuietIsReady(flow, n - 1, Completed);
      var end := OneTurn(batch, flow, n - 1, n - 1, Enrolled(None), Completed);
      QuietStays(flow, n - 1, end);
      UnrollSplit(cfg, QUIET_START, Busy(n - 1), Turn(n - 1, n - 1, Enrolled(None), Completed));
    }
  }

  lemma {:induction false} CountAll<T>(rows: seq<T>, p: T -> bool)
    requires forall i :: 0 <= i < |rows| ==> p(rows[i])
    ensures Count(rows, p) == |rows|
  {
    if rows != [] {
      CountAll(rows[..|rows| - 1], p);
    }
  }

  /** A failed run of a task whose retry is due, with no continuation or skip for it. */
  ghost predicate Overlooked(cfg: Settings, flow: Flow, e: Id) {
    && e < |flow.events| && Trigger(flow.db)(flow.events[e]) && !Seen(flow, e)
    && DirectiveFor(cfg, NO_BUDGETS, flow.db, flow.events[e]).Propose?
    && Count(flow.events[..e], Trigger(flow.db)) >= 4 * cfg.workflowBatch
  }

  lemma OverlookedAfterwards(batch: nat, n: nat, flow: Flow, end: Flow)
    requires Quiet(flow, n) && 4 * batch <= n && Turned(flow.db, end.db, n, n, Enrolled(None), Failed)
    requires end == flow.(db := end.db, events := flow.events + [RunEvent(n, "run." + StatusName(Failed), true)])
    ensures Overlooked(Configured(batch), end, n)
  {
    hide Fresh, Calm, DirectiveFor;
    TriggersBefore(n, flow, end);
    FirstRun(n, flow.db, end.db);
    RetryIsDue(batch, end.db, end.events[n], n);
  }

  lemma FirstRun(n: nat, db: Db, end: Db)
    requires |db.runs| == n && |end.runs| == n + 1 && end.runs[..n] == db.runs && end.runs[n].task == n
    requires forall i :: 0 <= i < n ==> db.runs[i].task == i
    ensures Count(end.runs, OfTask(n)) == 1
  {
    CountZero(db.runs, OfTask(n));
    assert end.runs == db.runs + [end.runs[n]];
    CountAppend(db.runs, end.runs[n], OfTask(n));
  }

  lemma TriggersBefore(n: nat, flow: Flow, end: Flow)
    requires Quiet(flow, n) && Turned(flow.db, end.db, n, n, Enrolled(None), Failed)
    requires |end.events| == n + 1 && end.events[..n] == flow.events
    ensures Count(end.events[..n], Trigger(end.db)) == n
  {
    hide Fresh, Calm;
    forall i | 0 <= i < n ensures Trigger(end.db)(end.events[..n][i]) {
      assert end.db.tasks[..n][i] == end.db.tasks[i] && end.db.runs[..n][i] == end.db.runs[i];
    }
    CountAll(end.events[..n], Trigger(end.db));
  }

  lemma RetryIsDue(batch: nat, db: Db, event: RunEvent, t: Id)
    requires event.run < |db.runs| && db.runs[event.run].task == t < |db.tasks|
    requires db.tasks[t].payload == Enrolled(None) && db.runs[event.run].status == Failed
    requires Count(db.runs, OfTask(t)) == 1
    ensures DirectiveFor(Configured(batch), NO_BUDGETS, db, event).Propose?
  {
    hide LimitsFor;
    DefaultLimits(batch, ScopeOf(db.tasks[t], db.runs[event.run].worker, db.runs[event.run].profile));
  }

  /**
    However many batches the coordinator reads, a history of ordinary runs reaches a failure whose retry is
    due and that no later history has discovered.
   */
  lemma OverlookedIsReachable(batch: nat, n: nat, history: seq<Entry>, future: seq<Entry>, end: Flow)
    requires 4 * batch <= n && history == Busy(n) + Turn(n, n, Enrolled(None), Failed)
    requires end == Unroll(Configured(batch), QUIET_START, history) && Admissible(Configured(batch), end, future)
    ensures Admissible(Configured(batch), QUIET_START, history)
    ensures Overlooked(Configured(batch), end, n)
    ensures !Seen(Unroll(Configured(batch), end, future), n)
  {
    hide Quiet, Ready, Turned, Turn, Unroll, Admissible, Wired;
    var cfg := Configured(batch);
    BusyIsQuiet(batch, n);
    var flow := Unroll(cfg, QUIET_START, Busy(n));
    QuietIsReady(flow, n, Failed);
    var last := OneTurn(batch, flow, n, n, Enrolled(None), Failed);
    UnrollSplit(cfg, QUIET_START, Busy(n), Turn(n, n, Enrolled(None), Failed));
    OverlookedAfterwards(batch, n, flow, last);
    StartIsWired(cfg);
    WorkIsBounded(cfg, QUIET_START, history);
    LateEventsAreNeverDiscovered(cfg, end, future, n);
  }

  // ---- Orphans ------------------------------------------------------------------------------------

  /** A person's task, and a child of it that an agent completes with the default settings. */
  function Orphaning(): seq<Entry> {
    [Entry(Outside(Create("user:owner", Fresh(0), ONE_TASK)), 0)] + Turn(1, 0, Enrolled(Some(0)), Completed)
  }

  lemma ParentFirst(db: Db)
    requires db == CreateTask(EMPTY, "user:owner", Fresh(0), ONE_TASK).db
    ensures Ready(db, 1, 0, Enrolled(Some(0)), Completed)
    ensures db.tasks == [Task("user:owner", Fresh(0), ONE_TASK, Pending, None)]
  {
    FreshKeys(0, 1);
  }

  lemma NothingSeen(flow: Flow, e: Id)
    requires flow.continuations == [] && flow.skips == []
    ensures !Seen(flow, e)
  {
  }

  lemma OrphanFollows(batch: nat, db: Db, end: Flow)
    requires batch > 0 && db.tasks == [Task("user:owner", Fresh(0), ONE_TASK, Pending, None)]
    requires Turned(db, end.db, 1, 0, Enrolled(Some(0)), Completed)
    requires end == Flow(end.db, [RunEvent(0, "run." + StatusName(Completed), true)], [], [])
    ensures StuckForGood(Configured(batch), end, 0)
  {
    hide LimitsFor, Fresh, Calm, Seen;
    assert end.db.tasks[..1][0] == end.db.tasks[0] == db.tasks[0];
    assert AGENT[0] != "user:owner"[0];
    assert end.events[0].kind[4] == 'c' && "run.failed"[4] == 'f' && "run.timed_out"[4] == 't';
    assert !Seen(end, 0) by {
      NothingSeen(end, 0);
    }
    assert end.events[..0] == [];
  }

  lemma OrphanIsReachable(batch: nat, end: Flow)
    requires batch > 0 && end == Unroll(Configured(batch), QUIET_START, Orphaning())
    ensures Admissible(Configured(batch), QUIET_START, Orphaning()) && Wired(Configured(batch), end)
    ensures StuckForGood(Configured(batch), end, 0)
  {
    hide Ready, Turned, Turn, Wired, CreateTask, StuckForGood, Unroll, Admissible, Configured;
    var cfg := Configured(batch);
    var first := Entry(Outside(Create("user:owner", Fresh(0), ONE_TASK)), 0);
    var flow := QUIET_START.(db := CreateTask(EMPTY, "user:owner", Fresh(0), ONE_TASK).db);
    UnrollOne(cfg, QUIET_START, first);
    ParentFirst(flow.db);
    var last := OneTurn(batch, flow, 1, 0, Enrolled(Some(0)), Completed);
    UnrollSplit(cfg, QUIET_START, [first], Turn(1, 0, Enrolled(Some(0)), Completed));
    OrphanFollows(batch, flow.db, last);
    StartIsWired(cfg);
    WorkIsBounded(cfg, QUIET_START, Orphaning());
  }
}
