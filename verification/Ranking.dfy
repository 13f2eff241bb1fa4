/**
  The ranking function of the autonomous workflow loop: how many more transactions the tasks, runs,
  events and continuations on record can still give rise to.
 */
module Ranking {
  import opened Tables
  import opened Records
  import opened Controls
  import opened Lifecycle
  import opened Invariants
  import opened Identity
  import opened Chains
  import opened Workflow

  function Total(n: nat, f: nat -> nat): nat {
    if n == 0 then 0 else Total(n - 1, f) + f(n - 1)
  }

  lemma {:induction false} TotalAtMost(n: nat, f: nat -> nat, g: nat -> nat)
    requires forall i: nat :: i < n ==> g(i) <= f(i)
    ensures Total(n, g) <= Total(n, f)
  {
    if n > 0 {
      TotalAtMost(n - 1, f, g);
    }
  }

  /** One term falls by `d` and no other grows. */
  lemma {:induction false} TotalFalls(n: nat, f: nat -> nat, g: nat -> nat, at: nat, d: nat)
    requires forall i: nat :: i < n ==> g(i) <= f(i)
    requires at < n && g(at) + d <= f(at)
    ensures Total(n, g) + d <= Total(n, f)
  {
    if at == n - 1 {
      TotalAtMost(n - 1, f, g);
    } else {
      TotalFalls(n - 1, f, g, at, d);
    }
  }

  // ---- Levels ---------------------------------------------------------------------------------

  /** The depth of a task whose ancestors are all older. */
  function Level(tasks: seq<Task>, t: Id): nat
    requires t < |tasks|
    decreases t
  {
    match tasks[t].payload.parent
    case None => 0
    case Some(p) => if p < t then 1 + Level(tasks, p) else 0
  }

  ghost predicate SameParents(a: seq<Task>, b: seq<Task>) {
    |a| <= |b| && forall t :: 0 <= t < |a| ==> a[t].payload.parent == b[t].payload.parent
  }

  lemma {:induction false} LevelKept(a: seq<Task>, b: seq<Task>, t: Id)
    requires SameParents(a, b) && t < |a|
    ensures Level(b, t) == Level(a, t)
    decreases t
  {
    if a[t].payload.parent.Some? && a[t].payload.parent.value < t {
      LevelKept(a, b, a[t].payload.parent.value);
    }
  }

  lemma {:induction false} WalkIsLevel(tasks: seq<Task>, t: Id, left: nat)
    requires t < |tasks| && t <= left && forall k :: 0 <= k < |tasks| ==> LinksBack(tasks, k)
    ensures Walk(tasks, t, left) == Deep(Level(tasks, t))
    decreases left
  {
    assert LinksBack(tasks, t);
    if tasks[t].payload.parent.Some? {
      WalkIsLevel(tasks, tasks[t].payload.parent.value, left - 1);
    }
  }

  // ---- Weights --------------------------------------------------------------------------------

  function Attempts(cfg: Settings): nat {
    Max(0, cfg.maxRetries + 1)
  }

  /** What a task with no runs, `k` levels above the depth limit, can give rise to. */
  function TaskWeight(cfg: Settings, k: nat): nat
    decreases k, 3
  {
    Attempts(cfg) * (1 + RunWeight(cfg, k))
  }

  /** A run whose terminal event is not on record yet. */
  function RunWeight(cfg: Settings, k: nat): nat
    decreases k, 2
  {
    1 + EventWeight(cfg, k)
  }

  /** A terminal event that has not been consumed: a continuation, its directive and what follows. */
  function EventWeight(cfg: Settings, k: nat): nat
    decreases k, 1
  {
    2 + ContinuationWeight(cfg, k)
  }

  /** A pending continuation: its settlement, and one level down its successor. */
  function ContinuationWeight(cfg: Settings, k: nat): nat
    decreases k, 0
  {
    if k == 0 then 1 else 2 + TaskWeight(cfg, k - 1)
  }

  function Slack(cfg: Settings, tasks: seq<Task>, t: Id): nat {
    if t < |tasks| then Max(0, cfg.workflowMaxDepth - Level(tasks, t)) else 0
  }

  // ---- Terms ----------------------------------------------------------------------------------

  function EndOf(run: Id): RunEvent -> bool {
    (e: RunEvent) => e.run == run && e.terminal
  }

  function AttemptsLeft(cfg: Settings, runs: seq<Run>, t: Id): nat {
    Max(0, Attempts(cfg) - Count(runs, OfTask(t)))
  }

  function TaskTerm(cfg: Settings, tasks: seq<Task>, runs: seq<Run>): nat -> nat {
    (t: nat) => AttemptsLeft(cfg, runs, t) * (1 + RunWeight(cfg, Slack(cfg, tasks, t)))
  }

  function RunTerm(cfg: Settings, tasks: seq<Task>, runs: seq<Run>, events: seq<RunEvent>): nat -> nat {
    (r: nat) =>
      if r < |runs| && !Has(events, EndOf(r)) then RunWeight(cfg, Slack(cfg, tasks, runs[r].task)) else 0
  }

  function EventTerm(cfg: Settings, flow: Flow): nat -> nat {
    (e: nat) =>
      if Known(flow, e) && flow.events[e].terminal && !Seen(flow, e)
      then EventWeight(cfg, Slack(cfg, flow.db.tasks, flow.db.runs[flow.events[e].run].task)) else 0
  }

  function ContinuationValue(cfg: Settings, tasks: seq<Task>, row: Continuation, c: Id): nat {
    (if row.directive.None? then 1 else 0)
    + (if row.status != Pending then 0
       else if Has(tasks, TaskKeyed(WorkflowTask(c))) then 1
       else ContinuationWeight(cfg, Slack(cfg, tasks, row.task)))
  }

  function ContinuationTerm(cfg: Settings, tasks: seq<Task>, continuations: seq<Continuation>): nat -> nat {
    (c: nat) => if c < |continuations| then ContinuationValue(cfg, tasks, continuations[c], c) else 0
  }

  function Rank(cfg: Settings, flow: Flow): nat {
    Total(|flow.db.tasks|, TaskTerm(cfg, flow.db.tasks, flow.db.runs))
    + Total(|flow.db.runs|, RunTerm(cfg, flow.db.tasks, flow.db.runs, flow.events))
    + Total(|flow.events|, EventTerm(cfg, flow))
    + Total(|flow.continuations|, ContinuationTerm(cfg, flow.db.tasks, flow.continuations))
  }

  // ---- What each kind of change does to the rank ------------------------------------------------

  /** Existing rows keep what the rank reads: parents of tasks, tasks of runs. */
  ghost predicate Alike(a: Db, b: Db) {
    && SameParents(a.tasks, b.tasks) && |a.runs| <= |b.runs|
    && forall r :: 0 <= r < |a.runs| ==> a.runs[r].task == b.runs[r].task < |a.tasks|
  }

  ghost predicate Recorded(flow: Flow) {
    && (forall r :: 0 <= r < |flow.db.runs| ==> flow.db.runs[r].task < |flow.db.tasks|)
    && (forall e :: 0 <= e < |flow.events| ==> flow.events[e].run < |flow.db.runs|)
    && (forall c :: 0 <= c < |flow.continuations| ==>
          flow.continuations[c].event < |flow.events| && flow.continuations[c].task < |flow.db.tasks|)
    && (forall s :: 0 <= s < |flow.skips| ==> flow.skips[s].event < |flow.events|)
  }

  lemma TaskTotalKept(cfg: Settings, a: Db, b: Db)
    requires Alike(a, b) && |a.runs| == |b.runs|
    ensures Total(|a.tasks|, TaskTerm(cfg, b.tasks, b.runs)) <= Total(|a.tasks|, TaskTerm(cfg, a.tasks, a.runs))
  {
    forall t: nat | t < |a.tasks|
      ensures TaskTerm(cfg, b.tasks, b.runs)(t) <= TaskTerm(cfg, a.tasks, a.runs)(t)
    {
      LevelKept(a.tasks, b.tasks, t);
      CountSame(a.runs, b.runs, OfTask(t), OfTask(t));
    }
    TotalAtMost(|a.tasks|, TaskTerm(cfg, a.tasks, a.runs), TaskTerm(cfg, b.tasks, b.runs));
  }

  lemma RunTotalKept(cfg: Settings, a: Db, b: Db, events: seq<RunEvent>)
    requires Alike(a, b)
    ensures Total(|a.runs|, RunTerm(cfg, b.tasks, b.runs, events))
         <= Total(|a.runs|, RunTerm(cfg, a.tasks, a.runs, events))
  {
    forall r: nat | r < |a.runs|
      ensures RunTerm(cfg, b.tasks, b.runs, events)(r) <= RunTerm(cfg, a.tasks, a.runs, events)(r)
    {
      LevelKept(a.tasks, b.tasks, a.runs[r].task);
    }
    TotalAtMost(|a.runs|, RunTerm(cfg, a.tasks, a.runs, events), RunTerm(cfg, b.tasks, b.runs, events));
  }

  lemma EventTotalKept(cfg: Settings, flow: Flow, b: Db)
    requires Alike(flow.db, b) && Recorded(flow)
    ensures Total(|flow.events|, EventTerm(cfg, flow.(db := b))) <= Total(|flow.events|, EventTerm(cfg, flow))
  {
    var after := flow.(db := b);
    forall e: nat | e < |flow.events| ensures EventTerm(cfg, after)(e) <= EventTerm(cfg, flow)(e) {
      LevelKept(flow.db.tasks, b.tasks, b.runs[flow.events[e].run].task);
    }
    TotalAtMost(|flow.events|, EventTerm(cfg, flow), EventTerm(cfg, after));
  }

  lemma ContinuationTermKept(cfg: Settings, a: seq<Task>, b: seq<Task>, rows: seq<Continuation>, c: Id)
    requires SameParents(a, b) && c < |rows| && rows[c].task < |a|
    requires forall t :: 0 <= t < |a| ==> a[t].key == b[t].key
    ensures ContinuationTerm(cfg, b, rows)(c) <= ContinuationTerm(cfg, a, rows)(c)
  {
    LevelKept(a, b, rows[c].task);
    if Has(a, TaskKeyed(WorkflowTask(c))) {
      var t :| 0 <= t < |a| && TaskKeyed(WorkflowTask(c))(a[t]);
      assert TaskKeyed(WorkflowTask(c))(b[t]);
    }
  }

  lemma ContinuationTotalKept(cfg: Settings, a: seq<Task>, b: seq<Task>, rows: seq<Continuation>)
    requires SameParents(a, b) && forall c :: 0 <= c < |rows| ==> rows[c].task < |a|
    requires forall t :: 0 <= t < |a| ==> a[t].key == b[t].key
    ensures Total(|rows|, ContinuationTerm(cfg, b, rows)) <= Total(|rows|, ContinuationTerm(cfg, a, rows))
  {
    forall c: nat | c < |rows| ensures ContinuationTerm(cfg, b, rows)(c) <= ContinuationTerm(cfg, a, rows)(c) {
      ContinuationTermKept(cfg, a, b, rows, c);
    }
    TotalAtMost(|rows|, ContinuationTerm(cfg, a, rows), ContinuationTerm(cfg, b, rows));
  }

  /** Rewriting rows without appending any leaves the rank where it was. */
  lemma CarriedRank(cfg: Settings, flow: Flow, after: Flow)
    requires Recorded(flow) && KeepsRows(flow.db, after.db) && after == flow.(db := after.db)
    ensures Rank(cfg, after) <= Rank(cfg, flow)
  {
    TaskTotalKept(cfg, flow.db, after.db);
    RunTotalKept(cfg, flow.db, after.db, flow.events);
    EventTotalKept(cfg, flow, after.db);
    ContinuationTotalKept(cfg, flow.db.tasks, after.db.tasks, flow.continuations);
  }

  lemma OneMore(n: nat, w: nat)
    ensures (n + 1) * w == n * w + w
  {
  }

  lemma TermFalls(cfg: Settings, a: Db, b: Db, row: Run, t: nat)
    requires Alike(a, b) && |a.tasks| == |b.tasks| && b.runs == a.runs + [row]
    requires t < |a.tasks| && (t == row.task ==> Count(a.runs, OfTask(t)) <= cfg.maxRetries)
    ensures TaskTerm(cfg, b.tasks, b.runs)(t)
            + (if t == row.task then 1 + RunWeight(cfg, Slack(cfg, a.tasks, t)) else 0)
         <= TaskTerm(cfg, a.tasks, a.runs)(t)
  {
    hide RunWeight, Level;
    LevelKept(a.tasks, b.tasks, t);
    CountAppend(a.runs, row, OfTask(t));
    if t == row.task {
      var n, w := AttemptsLeft(cfg, b.runs, t), 1 + RunWeight(cfg, Slack(cfg, a.tasks, t));
      assert AttemptsLeft(cfg, a.runs, t) == n + 1;
      OneMore(n, w);
    }
  }

  lemma TaskTotalFalls(cfg: Settings, a: Db, b: Db, row: Run)
    requires Alike(a, b) && |a.tasks| == |b.tasks| && b.runs == a.runs + [row]
    requires row.task < |a.tasks| && Count(a.runs, OfTask(row.task)) <= cfg.maxRetries
    ensures Total(|a.tasks|, TaskTerm(cfg, b.tasks, b.runs)) + 1 + RunWeight(cfg, Slack(cfg, a.tasks, row.task))
         <= Total(|a.tasks|, TaskTerm(cfg, a.tasks, a.runs))
  {
    hide Total, RunWeight, Slack, TaskTerm;
    var f, g := TaskTerm(cfg, a.tasks, a.runs), TaskTerm(cfg, b.tasks, b.runs);
    forall t: nat | t < |a.tasks|
      ensures g(t) + (if t == row.task then 1 + RunWeight(cfg, Slack(cfg, a.tasks, t)) else 0) <= f(t)
    {
      TermFalls(cfg, a, b, row, t);
    }
    TotalFalls(|a.tasks|, f, g, row.task, 1 + RunWeight(cfg, Slack(cfg, a.tasks, row.task)));
  }

  lemma RunTotalGrows(cfg: Settings, a: Db, b: Db, row: Run, events: seq<RunEvent>)
    requires Alike(a, b) && b.runs == a.runs + [row] && row.task < |a.tasks|
    ensures Total(|b.runs|, RunTerm(cfg, b.tasks, b.runs, events))
         <= Total(|a.runs|, RunTerm(cfg, a.tasks, a.runs, events)) + RunWeight(cfg, Slack(cfg, a.tasks, row.task))
  {
    RunTotalKept(cfg, a, b, events);
    LevelKept(a.tasks, b.tasks, row.task);
  }

  /** A new run spends one of its task's attempts. */
  lemma RunAppendedRank(cfg: Settings, flow: Flow, after: Flow, row: Run)
    requires Recorded(flow) && after == flow.(db := after.db)
    requires SameTasks(flow.db.tasks, after.db.tasks) && after.db.runs == flow.db.runs + [row]
    requires row.task < |flow.db.tasks| && Count(flow.db.runs, OfTask(row.task)) <= cfg.maxRetries
    ensures Rank(cfg, after) < Rank(cfg, flow)
  {
    TaskTotalFalls(cfg, flow.db, after.db, row);
    RunTotalGrows(cfg, flow.db, after.db, row, flow.events);
    EventTotalKept(cfg, flow, after.db);
    ContinuationTotalKept(cfg, flow.db.tasks, after.db.tasks, flow.continuations);
  }

  lemma NoRunsYet(cfg: Settings, db: Db, row: Task)
    requires forall r :: 0 <= r < |db.runs| ==> db.runs[r].task < |db.tasks|
    ensures TaskTerm(cfg, db.tasks + [row], db.runs)(|db.tasks|)
         == TaskWeight(cfg, Slack(cfg, db.tasks + [row], |db.tasks|))
  {
    CountZero(db.runs, OfTask(|db.tasks|));
  }

  lemma TaskTotalGrows(cfg: Settings, a: Db, b: Db, row: Task)
    requires Alike(a, b) && b.tasks == a.tasks + [row] && b.runs == a.runs
    ensures Total(|b.tasks|, TaskTerm(cfg, b.tasks, b.runs))
         <= Total(|a.tasks|, TaskTerm(cfg, a.tasks, a.runs)) + TaskWeight(cfg, Slack(cfg, b.tasks, |a.tasks|))
  {
    TaskTotalKept(cfg, a, b);
    NoRunsYet(cfg, a, row);
  }

  /** A new task adds its whole weight. */
  lemma TaskAppendedRank(cfg: Settings, flow: Flow, after: Flow, row: Task)
    requires Recorded(flow) && after == flow.(db := after.db)
    requires after.db.tasks == flow.db.tasks + [row] && after.db.runs == flow.db.runs
    ensures Rank(cfg, after) <= Rank(cfg, flow) + TaskWeight(cfg, Slack(cfg, after.db.tasks, |flow.db.tasks|))
  {
    TaskTotalGrows(cfg, flow.db, after.db, row);
    RunTotalKept(cfg, flow.db, after.db, flow.events);
    EventTotalKept(cfg, flow, after.db);
    ContinuationTotalKept(cfg, flow.db.tasks, after.db.tasks, flow.continuations);
  }

  /** The continuation a successor belongs to gives up more than the successor's weight. */
  lemma {:induction false} SuccessorTotalFalls(cfg: Settings, a: seq<Task>, row: Task, rows: seq<Continuation>, c: Id)
    requires forall i :: 0 <= i < |rows| ==> rows[i].task < |a|
    requires c < |rows| && rows[c].status == Pending && row.key == WorkflowTask(c)
    requires row.payload.parent == Some(rows[c].task) && !Has(a, TaskKeyed(WorkflowTask(c)))
    requires Level(a, rows[c].task) < cfg.workflowMaxDepth
    ensures Total(|rows|, ContinuationTerm(cfg, a + [row], rows)) + 1 + TaskWeight(cfg, Slack(cfg, a + [row], |a|))
         <= Total(|rows|, ContinuationTerm(cfg, a, rows))
  {
    var b := a + [row];
    forall i: nat | i < |rows| ensures ContinuationTerm(cfg, b, rows)(i) <= ContinuationTerm(cfg, a, rows)(i) {
      ContinuationTermKept(cfg, a, b, rows, i);
    }
    LevelKept(a, b, rows[c].task);
    assert TaskKeyed(WorkflowTask(c))(b[|a|]);
    TotalFalls(|rows|, ContinuationTerm(cfg, a, rows), ContinuationTerm(cfg, b, rows), c,
      1 + TaskWeight(cfg, Slack(cfg, b, |a|)));
  }

  lemma SuccessorRank(cfg: Settings, flow: Flow, after: Flow, row: Task, c: Id)
    requires Recorded(flow) && after == flow.(db := after.db)
    requires after.db.tasks == flow.db.tasks + [row] && after.db.runs == flow.db.runs
    requires c < |flow.continuations| && flow.continuations[c].status == Pending && row.key == WorkflowTask(c)
    requires row.payload.parent == Some(flow.continuations[c].task)
    requires !Has(flow.db.tasks, TaskKeyed(WorkflowTask(c)))
    requires Level(flow.db.tasks, flow.continuations[c].task) < cfg.workflowMaxDepth
    ensures Rank(cfg, after) < Rank(cfg, flow)
  {
    TaskTotalGrows(cfg, flow.db, after.db, row);
    RunTotalKept(cfg, flow.db, after.db, flow.events);
    EventTotalKept(cfg, flow, after.db);
    SuccessorTotalFalls(cfg, flow.db.tasks, row, flow.continuations, c);
  }

  // ---- Events ---------------------------------------------------------------------------------

  lemma HasAppend<T>(rows: seq<T>, row: T, p: T -> bool)
    ensures Has(rows + [row], p) <==> Has(rows, p) || p(row)
  {
    if Has(rows, p) {
      var i :| 0 <= i < |rows| && p(rows[i]);
      assert p((rows + [row])[i]);
    }
    assert (rows + [row])[|rows|] == row;
  }

  lemma RunTotalEnds(cfg: Settings, db: Db, events: seq<RunEvent>, e: RunEvent)
    requires e.run < |db.runs|
    ensures var f, g := RunTerm(cfg, db.tasks, db.runs, events), RunTerm(cfg, db.tasks, db.runs, events + [e]);
            Total(|db.runs|, g)
            + (if e.terminal && !Has(events, EndOf(e.run))
               then RunWeight(cfg, Slack(cfg, db.tasks, db.runs[e.run].task)) else 0)
            <= Total(|db.runs|, f)
  {
    var f, g := RunTerm(cfg, db.tasks, db.runs, events), RunTerm(cfg, db.tasks, db.runs, events + [e]);
    forall r: nat | r < |db.runs|
      ensures g(r) <= f(r)
      ensures r == e.run && e.terminal ==> g(r) == 0
    {
      HasAppend(events, e, EndOf(r));
    }
    TotalFalls(|db.runs|, f, g, e.run,
      if e.terminal && !Has(events, EndOf(e.run))
      then RunWeight(cfg, Slack(cfg, db.tasks, db.runs[e.run].task)) else 0);
  }

  /** What an event adds to the rank: nothing, unless its run had ended before. */
  function EventAllowance(cfg: Settings, flow: Flow, e: RunEvent): nat
    requires e.run < |flow.db.runs|
  {
    if e.terminal && Has(flow.events, EndOf(e.run))
    then EventWeight(cfg, Slack(cfg, flow.db.tasks, flow.db.runs[e.run].task)) else 0
  }

  lemma {:induction false} EventRank(cfg: Settings, flow: Flow, after: Flow, e: RunEvent)
    requires Recorded(flow) && e.run < |flow.db.runs| && after == flow.(events := flow.events + [e])
    ensures Rank(cfg, after) <= Rank(cfg, flow) + EventAllowance(cfg, flow, e)
    ensures e.terminal && !Has(flow.events, EndOf(e.run)) ==> Rank(cfg, after) < Rank(cfg, flow)
  {
    RunTotalEnds(cfg, flow.db, flow.events, e);
    EventTotalGrows(cfg, flow, after, e);
  }

  lemma {:induction false} EventTotalGrows(cfg: Settings, flow: Flow, after: Flow, e: RunEvent)
    requires Recorded(flow) && e.run < |flow.db.runs| && after == flow.(events := flow.events + [e])
    ensures Total(|after.events|, EventTerm(cfg, after))
         <= Total(|flow.events|, EventTerm(cfg, flow))
            + (if e.terminal then EventWeight(cfg, Slack(cfg, flow.db.tasks, flow.db.runs[e.run].task)) else 0)
  {
    forall i: nat | i < |flow.events| ensures EventTerm(cfg, after)(i) <= EventTerm(cfg, flow)(i) {
      assert after.events[i] == flow.events[i];
    }
    TotalAtMost(|flow.events|, EventTerm(cfg, flow), EventTerm(cfg, after));
  }

  // ---- Continuations --------------------------------------------------------------------------

  /** The rank's view of an event that has just been consumed. */
  lemma EventTotalSeen(cfg: Settings, flow: Flow, after: Flow, e: Id)
    requires after.db == flow.db && after.events == flow.events && Known(flow, e)
    requires flow.events[e].terminal && !Seen(flow, e)
    requires forall k: nat :: Seen(after, k) <==> Seen(flow, k) || k == e
    ensures Total(|flow.events|, EventTerm(cfg, after))
            + EventWeight(cfg, Slack(cfg, flow.db.tasks, flow.db.runs[flow.events[e].run].task))
         <= Total(|flow.events|, EventTerm(cfg, flow))
  {
    TotalFalls(|flow.events|, EventTerm(cfg, flow), EventTerm(cfg, after), e,
      EventWeight(cfg, Slack(cfg, flow.db.tasks, flow.db.runs[flow.events[e].run].task)));
  }

  lemma SeenGrows(flow: Flow, rows: seq<Continuation>, skips: seq<Skip>, k: Id)
    requires |rows| + |skips| == 1
    ensures var after := flow.(continuations := flow.continuations + rows, skips := flow.skips + skips);
            Seen(after, k) <==> Seen(flow, k) || k == if rows != [] then rows[0].event else skips[0].event
  {
    if rows != [] {
      HasAppend(flow.continuations, rows[0], TriggeredBy(k));
      assert flow.continuations + rows == flow.continuations + [rows[0]];
      assert flow.skips + skips == flow.skips;
    } else {
      HasAppend(flow.skips, skips[0], SkipOf(k));
      assert flow.skips + skips == flow.skips + [skips[0]];
      assert flow.continuations + rows == flow.continuations;
    }
  }

  lemma SkipRank(cfg: Settings, flow: Flow, after: Flow, e: Id, reason: string)
    requires after == flow.(skips := flow.skips + [Skip(e, reason)])
    requires Known(flow, e) && flow.events[e].terminal && !Seen(flow, e)
    ensures Rank(cfg, after) < Rank(cfg, flow)
  {
    forall k: nat ensures Seen(after, k) <==> Seen(flow, k) || k == e {
      SeenGrows(flow, [], [Skip(e, reason)], k);
      assert flow.continuations + [] == flow.continuations;
    }
    EventTotalSeen(cfg, flow, after, e);
  }

  lemma ContinuationRank(cfg: Settings, flow: Flow, after: Flow, row: Continuation)
    requires after == flow.(continuations := flow.continuations + [row])
    requires Known(flow, row.event) && flow.events[row.event].terminal && !Seen(flow, row.event)
    requires row.task == flow.db.runs[flow.events[row.event].run].task && row.directive.None? && row.status == Pending
    ensures Rank(cfg, after) < Rank(cfg, flow)
  {
    forall k: nat ensures Seen(after, k) <==> Seen(flow, k) || k == row.event {
      SeenGrows(flow, [row], [], k);
      assert flow.skips + [] == flow.skips;
    }
    EventTotalSeen(cfg, flow, after, row.event);
    var f, g := ContinuationTerm(cfg, flow.db.tasks, flow.continuations),
                ContinuationTerm(cfg, flow.db.tasks, after.continuations);
    TotalAtMost(|flow.continuations|, f, g);
    assert g(|flow.continuations|) <= 1 + ContinuationWeight(cfg, Slack(cfg, flow.db.tasks, row.task)) by {
      ContinuationWeightPositive(cfg, Slack(cfg, flow.db.tasks, row.task));
    }
  }

  lemma ContinuationWeightPositive(cfg: Settings, k: nat)
    ensures ContinuationWeight(cfg, k) >= 1
  {
  }

  /** Storing the directive of a continuation, or settling it, is progress. */
  lemma EditRank(cfg: Settings, flow: Flow, after: Flow, c: Id, row: Continuation)
    requires c < |flow.continuations| && after == PutContinuation(flow, c, row)
    requires row.event == flow.continuations[c].event && row.task == flow.continuations[c].task
    requires || (&& flow.continuations[c].directive.None? && row.directive.Some?
                 && row.status == flow.continuations[c].status)
             || (&& flow.continuations[c].status == Pending && row.status != Pending
                 && row.directive == flow.continuations[c].directive)
    ensures Rank(cfg, after) < Rank(cfg, flow)
  {
    forall k: nat ensures Seen(after, k) <==> Seen(flow, k) {
      EditKeepsSeen(flow, c, row, k);
    }
    TotalAtMost(|flow.events|, EventTerm(cfg, flow), EventTerm(cfg, after));
    ContinuationWeightPositive(cfg, Slack(cfg, flow.db.tasks, row.task));
    TotalFalls(|flow.continuations|, ContinuationTerm(cfg, flow.db.tasks, flow.continuations),
      ContinuationTerm(cfg, flow.db.tasks, after.continuations), c, 1);
  }

  lemma EditKeepsSeen(flow: Flow, c: Id, row: Continuation, k: Id)
    requires c < |flow.continuations| && row.event == flow.continuations[c].event
    ensures Seen(PutContinuation(flow, c, row), k) <==> Seen(flow, k)
  {
    var p, after := TriggeredBy(k), flow.continuations[c := row];
    forall i | 0 <= i < |after| ensures p(after[i]) == p(flow.continuations[i]) {
    }
    if Has(flow.continuations, p) {
      var i :| 0 <= i < |after| && p(flow.continuations[i]);
      assert p(after[i]);
    }
  }
}
