/** Leases: what each call does to them, and that over whole histories they exclude each other. */
module Leases {
  import opened Tables
  import opened Records
  import opened Controls
  import opened Lifecycle
  import opened Invariants
  import opened Preservation
  import opened Admission
  import opened Closing
  import opened Approvals
  import opened Histories

  // ---- What one call does to one lease ---------------------------------------------------------

  /** A claim leases a free run to its owner for the duration asked for. */
  predicate Granted(a: Run, b: Run, owner: string, duration: Time, now: Time) {
    && (a.lease.None? || a.lease.value.expires <= now) && now < now + duration
    && b == a.(lease := Some(Lease(owner, now, now + duration, now)), dispatchAttempts := a.dispatchAttempts + 1)
  }

  /** A heartbeat of the holder moves the expiry to the duration from now. */
  predicate Extended(a: Run, b: Run, owner: string, duration: Time, now: Time) {
    && a.lease.Some? && a.lease.value.owner == owner && now < a.lease.value.expires && now < now + duration
    && b == a.(lease := Some(Lease(owner, a.lease.value.acquired, now + duration, now)))
  }

  predicate KeptOrDropped(a: Run, b: Run) {
    (b.lease == a.lease || b.lease.None?) && b.dispatchAttempts == a.dispatchAttempts
  }

  predicate LeaseStep(i: Id, a: Run, b: Run, cmd: Command, now: Time) {
    || KeptOrDropped(a, b)
    || (cmd.Claim? && Granted(a, b, cmd.owner, cmd.duration, now))
    || (cmd.Beat? && cmd.run == i && Extended(a, b, cmd.owner, cmd.duration, now))
  }

  ghost predicate StartFree(db: Db, after: Db) {
    forall i :: |db.runs| <= i < |after.runs| ==>
      after.runs[i].lease.None? && after.runs[i].dispatchAttempts == 0
  }

  ghost predicate LeaseSteps(db: Db, after: Db, cmd: Command, now: Time) {
    && |db.runs| <= |after.runs| && StartFree(db, after)
    && forall i: Id :: i < |db.runs| ==> LeaseStep(i, db.runs[i], after.runs[i], cmd, now)
  }

  /** No lease was granted or extended. */
  ghost predicate NoneHeldAnew(db: Db, after: Db) {
    && |db.runs| <= |after.runs| && StartFree(db, after)
    && forall i :: 0 <= i < |db.runs| ==> KeptOrDropped(db.runs[i], after.runs[i])
  }

  lemma ClaimSteps(db: Db, owner: string, duration: Time, limit: int, locked: set<Id>, now: Time, after: Db)
    requires after == ClaimRuns(db, owner, duration, limit, locked, now).db
    ensures LeaseSteps(db, after, Claim(owner, duration, limit, locked), now)
  {
    hide ClaimEach, ClaimQuery, Granted;
    if limit >= 1 && duration > 0 && !Blank(owner) {
      var ids := ClaimQuery(db.runs, locked, now, limit);
      ClaimQueryDistinct(db.runs, locked, now, limit, ids);
      ClaimEachSteps(db, ids, owner, duration, now);
    }
  }

  lemma ClaimEachSteps(db: Db, ids: seq<Id>, owner: string, duration: Time, now: Time)
    requires forall k :: 0 <= k < |ids| ==> ids[k] < |db.runs| && Claimable(db.runs[ids[k]], now)
    requires forall j, k :: 0 <= j < k < |ids| ==> ids[j] != ids[k]
    ensures var after := ClaimEach(db, ids, owner, now, now + duration);
            && |after.runs| == |db.runs| && after == db.(runs := after.runs, audit := after.audit)
            && forall i: Id :: i < |db.runs| ==>
                 if i in ids then duration > 0 ==> Granted(db.runs[i], after.runs[i], owner, duration, now)
                 else after.runs[i] == db.runs[i]
  {
    ClaimEachShape(db, ids, owner, now, now + duration);
  }

  lemma OneRowSteps(db: Db, after: Db, i: Id, row: Run)
    requires i < |db.runs| && after.runs == db.runs[i := row] && KeptOrDropped(db.runs[i], row)
    ensures NoneHeldAnew(db, after)
  {
  }

  lemma MoveSteps(
    cfg: Settings, cat: Catalog, db: Db, run: Id, to: Status, actor: string, code: Option<string>,
    summary: Option<string>, now: Time, step: Step)
    requires Core(cfg, db) && step == TransitionRun(cfg, cat, db, run, to, actor, code, summary, now)
    ensures NoneHeldAnew(db, step.db)
  {
    if Accepts(db, run, to) {
      var row := TransitionHasEffect(cfg, cat, db, run, to, actor, code, summary, now, step);
      OneRowSteps(db, step.db, run, row);
    } else {
      TransitionElse(cfg, cat, db, run, to, actor, code, summary, now, step);
    }
  }

  lemma CloseSteps(cfg: Settings, db: Db, run: Id, code: string, actor: string, now: Time)
    requires run < |db.runs| && db.runs[run].task < |db.tasks|
    ensures CloseRun(cfg, db, run, code, actor, now).Filed? ==>
              NoneHeldAnew(db, CloseRun(cfg, db, run, code, actor, now).db)
  {
  }

  lemma ExpireSteps(cfg: Settings, db: Db, run: Id, approval: Id, now: Time)
    requires run < |db.runs| && db.runs[run].task < |db.tasks| && approval < |db.approvals|
    ensures NoneHeldAnew(db, ExpireApproval(cfg, db, run, approval, now).db)
  {
    var expired := db.(approvals := db.approvals[approval := db.approvals[approval].(verdict := Expired)]);
    CloseSteps(cfg, expired, run, "approval_expired", WATCHDOG, now);
  }

  lemma DecideSteps(
    cfg: Settings, db: Db, run: Id, approval: Id, actor: string, key: string, decision: Verdict, reason: string,
    now: Time, decided: Db)
    requires run < |db.runs| && db.runs[run].task < |db.tasks| && approval < |db.approvals|
    requires decided == db.(approvals := db.approvals[approval := db.approvals[approval].(
               verdict := decision, decidedBy := Some(actor), reason := Some(reason), decisionKey := Some(Named(key)))])
    ensures NoneHeldAnew(db, Decide(cfg, db, run, approval, actor, key, decision, reason, now).db)
  {
    CloseSteps(cfg, decided, run, "approval_rejected", actor, now);
  }

  lemma ResolveSteps(
    cfg: Settings, db: Db, run: Id, actor: string, key: string, decision: Verdict, reason: string, now: Time, after: Db)
    requires after == ResolveApproval(cfg, db, run, actor, key, decision, reason, now).db
    ensures NoneHeldAnew(db, after)
  {
    if AtDecision(db, run, actor, key, now) {
      var id := Last(db.approvals, ApprovalOf(run)).value;
      DecisionBranches(cfg, db, run, actor, key, decision, reason, now, id);
      ExpireSteps(cfg, db, run, id, now);
      DecideSteps(cfg, db, run, id, actor, key, decision, reason, now,
        db.(approvals := db.approvals[id := db.approvals[id].(
          verdict := decision, decidedBy := Some(actor), reason := Some(reason), decisionKey := Some(Named(key)))]));
    } else {
      NotAtDecision(cfg, db, run, actor, key, decision, reason, now);
    }
  }

  lemma CancelSteps(
    cfg: Settings, db: Db, task: Id, actor: string, key: string, reason: string, now: Time, step: Step)
    requires Inv(cfg, db) && step == CancelTask(cfg, db, task, actor, key, reason, now)
    ensures NoneHeldAnew(db, step.db)
  {
    if CancelsAfresh(db, task, key) {
      CancelShape(cfg, db, task, actor, key, reason, now, step);
      EffectSteps(db, step.db, task, actor, key, reason, now);
    } else {
      CancelElse(cfg, db, task, actor, key, reason, now, step);
      RejectPendingShape(db, |db.approvals|, task, actor, key, reason);
    }
  }

  lemma EffectSteps(db: Db, after: Db, task: Id, actor: string, key: string, reason: string, now: Time)
    requires CancelEffect(db, after, task, actor, key, reason, now)
    ensures NoneHeldAnew(db, after)
  {
    var active := Last(db.runs, ActiveOf(task));
    if active.Some? {
      OneRowSteps(db, after, active.value, Stopped(db.runs[active.value], reason, now));
    }
  }

  lemma DispatchSteps(
    cfg: Settings, cat: Catalog, db: Db, task: Id, actor: string, key: Key, p: DispatchPayload, now: Time, step: Step)
    requires step == DispatchTask(cfg, cat, db, task, actor, key, p, now)
    ensures NoneHeldAnew(db, step.db)
  {
    if Admission.Dispatched(step) {
      DispatchShape(cfg, cat, db, task, actor, key, p, now, step);
    } else {
      DispatchElse(cfg, cat, db, task, actor, key, p, now, step);
    }
  }

  lemma BeatSteps(db: Db, run: Id, owner: string, duration: Time, now: Time)
    ensures LeaseSteps(db, Heartbeat(db, run, owner, duration, now).db, Beat(run, owner, duration), now)
  {
  }

  lemma DropSteps(db: Db, run: Id, owner: string, next: Time, now: Time)
    ensures NoneHeldAnew(db, Release(db, run, owner, next, now).db)
  {
  }

  lemma NoteSteps(db: Db, run: Id, report: Report, now: Time)
    ensures NoneHeldAnew(db, Observe(db, run, report).db)
  {
  }

  lemma ColumnSteps(cfg: Settings, db: Db, cmd: Command, now: Time, after: Db)
    requires EditsColumns(cmd) && after == Apply(cfg, db, cmd, now).db
    ensures LeaseSteps(db, after, cmd, now)
  {
    hide ClaimRuns, Heartbeat, Release, Observe;
    match cmd
    case Claim(owner, duration, limit, locked) => ClaimSteps(db, owner, duration, limit, locked, now, after);
    case Beat(run, owner, duration) => BeatSteps(db, run, owner, duration, now);
    case Drop(run, owner, next) => DropSteps(db, run, owner, next, now);
    case Note(run, report) => NoteSteps(db, run, report, now);
    case _ =>
  }

  lemma CreateSteps(db: Db, actor: string, key: Key, payload: TaskPayload, now: Time, step: Step)
    requires step == CreateTask(db, actor, key, payload)
    ensures NoneHeldAnew(db, step.db)
  {
  }

  lemma DeliverSteps(
    db: Db, task: Id, actor: string, key: string, handoff: Handoff, ttl: Time, now: Time, step: Step)
    requires step == HandoffTask(db, task, actor, key, handoff, ttl, now)
    ensures NoneHeldAnew(db, step.db)
  {
  }

  lemma SweepSteps(cfg: Settings, cat: Catalog, db: Db, actor: string, now: Time, step: Step)
    requires Inv(cfg, db) && step == ExpireDueRuns(cfg, cat, db, actor, now)
    ensures NoneHeldAnew(db, step.db)
  {
    SweepKeepsInv(cfg, cat, db, actor, now, step);
    SweptSteps(db, step.db, now);
  }

  lemma SweptSteps(db: Db, after: Db, now: Time)
    requires |after.runs| == |db.runs|
    requires forall i :: 0 <= i < |db.runs| ==>
               after.runs[i] ==
               if Overdue(db.runs[i], now) then Finished(db.runs[i], TimedOut, "timeout", now) else db.runs[i]
    ensures NoneHeldAnew(db, after)
  {
  }

  lemma TaskSteps(cfg: Settings, db: Db, cmd: Command, now: Time, step: Step)
    requires Inv(cfg, db) && (cmd.Create? || cmd.Deliver? || cmd.Cancel?) && step == Apply(cfg, db, cmd, now)
    ensures NoneHeldAnew(db, step.db)
  {
    if cmd.Create? {
      CreateSteps(db, cmd.actor, cmd.key, cmd.payload, now, step);
    } else if cmd.Deliver? {
      DeliverSteps(db, cmd.task, cmd.actor, cmd.name, cmd.handoff, cmd.ttlSeconds, now, step);
    } else {
      CancelSteps(cfg, db, cmd.task, cmd.actor, cmd.name, cmd.reason, now, step);
    }
  }

  lemma RunSteps(cfg: Settings, db: Db, cmd: Command, now: Time, step: Step)
    requires Inv(cfg, db) && (cmd.Dispatch? || cmd.Move? || cmd.Resolve? || cmd.Sweep?)
    requires step == Apply(cfg, db, cmd, now)
    ensures NoneHeldAnew(db, step.db)
  {
    if cmd.Dispatch? {
      DispatchSteps(cfg, cmd.cat, db, cmd.task, cmd.actor, cmd.key, cmd.request, now, step);
    } else if cmd.Move? {
      MoveSteps(cfg, cmd.cat, db, cmd.run, cmd.to, cmd.actor, cmd.code, cmd.summary, now, step);
    } else if cmd.Resolve? {
      ResolveSteps(cfg, db, cmd.run, cmd.actor, cmd.name, cmd.decision, cmd.reason, now, step.db);
    } else {
      SweepSteps(cfg, cmd.cat, db, cmd.actor, now, step);
    }
  }

  /**
    Whatever the call, a lease is granted only by a claim while the run is free, moved only by a heartbeat of
    its holder while it stands, and otherwise kept or dropped; the other columns are left to the other calls.
   */
  lemma CallSteps(cfg: Settings, db: Db, e: Event, step: Step)
    requires Inv(cfg, db) && step == Apply(cfg, db, e.cmd, e.now)
    ensures LeaseSteps(db, step.db, e.cmd, e.now)
  {
    if EditsColumns(e.cmd) {
      ColumnSteps(cfg, db, e.cmd, e.now, step.db);
    } else if e.cmd.Create? || e.cmd.Deliver? || e.cmd.Cancel? {
      TaskSteps(cfg, db, e.cmd, e.now, step);
    } else {
      RunSteps(cfg, db, e.cmd, e.now, step);
    }
  }

  // ---- Granted windows ------------------------------------------------------------------------

  /** The time during which `owner` held a run, `until` excluded. */
  datatype Window = Window(owner: string, from: Time, until: Time)

  /** A grant opens a window, a heartbeat moves its end, losing the lease cuts it short. */
  function Observed(windows: seq<Window>, was: Option<Run>, row: Option<Run>, now: Time): seq<Window> {
    match row
    case None => windows
    case Some(b) =>
      var attempts := match was case None => 0 case Some(a) => a.dispatchAttempts;
      if b.dispatchAttempts > attempts && b.lease.Some? then
        windows + [Window(b.lease.value.owner, now, b.lease.value.expires)]
      else if windows == [] then windows
      else
        var last := windows[|windows| - 1];
        windows[|windows| - 1 := last.(until :=
          if b.lease.Some? then b.lease.value.expires else Min(last.until, now))]
  }

  function RowOf(db: Db, run: Id): Option<Run> {
    if run < |db.runs| then Some(db.runs[run]) else None
  }

  /** Every window of a run that the history granted. */
  function Windows(cfg: Settings, history: seq<Event>, run: Id): seq<Window> {
    if history == [] then []
    else
      var init := history[..|history| - 1];
      Observed(Windows(cfg, init, run), RowOf(Replay(cfg, init), run), RowOf(Replay(cfg, history), run),
               history[|history| - 1].now)
  }

  /** The clock never runs backwards. */
  predicate Ordered(history: seq<Event>) {
    forall j, k :: 0 <= j < k < |history| ==> history[j].now <= history[k].now
  }

  ghost predicate Disjoint(windows: seq<Window>) {
    forall j, k :: 0 <= j < k < |windows| ==> windows[j].until <= windows[k].from
  }

  /** The last window is the lease in the row, or it is over. */
  ghost predicate Tracks(windows: seq<Window>, row: Option<Run>, now: Time) {
    && Disjoint(windows)
    && (windows != [] ==> windows[|windows| - 1].from <= now)
    && (row.None? ==> windows == [])
    && (row.Some? ==>
          && |windows| == row.value.dispatchAttempts
          && (row.value.lease.Some? ==>
                && windows != []
                && var w, l := windows[|windows| - 1], row.value.lease.value;
                   w == Window(l.owner, l.acquired, l.expires))
          && (row.value.lease.None? && windows != [] ==> windows[|windows| - 1].until <= now))
  }

  lemma ObservedTracks(
    windows: seq<Window>, run: Id, was: Option<Run>, row: Option<Run>, cmd: Command, before: Time, now: Time)
    requires Tracks(windows, was, before) && before <= now
    requires was.Some? ==> row.Some? && LeaseStep(run, was.value, row.value, cmd, now)
    requires was.None? && row.Some? ==> row.value.lease.None? && row.value.dispatchAttempts == 0
    ensures Tracks(Observed(windows, was, row, now), row, now)
  {
  }

  /** Over any history, the windows granted on a run are pairwise disjoint and as many as its dispatch attempts. */
  lemma {:induction false} LeasesExclude(cfg: Settings, history: seq<Event>, run: Id, now: Time)
    requires Guarded(cfg, history) && Ordered(history)
    requires history != [] ==> history[|history| - 1].now <= now
    ensures Tracks(Windows(cfg, history, run), RowOf(Replay(cfg, history), run), now)
  {
    if history != [] {
      var init, last := history[..|history| - 1], history[|history| - 1];
      var before := Replay(cfg, init);
      EveryHistoryIsSafe(cfg, init);
      LeasesExclude(cfg, init, run, last.now);
      CallSteps(cfg, before, last, Apply(cfg, before, last.cmd, last.now));
      ObservedTracks(
        Windows(cfg, init, run), run, RowOf(before, run), RowOf(Replay(cfg, history), run), last.cmd, last.now,
        last.now);
    }
  }

  /** A run that has ended is leased to nobody. */
  lemma EndedRunsAreFree(cfg: Settings, history: seq<Event>, run: Id)
    requires Guarded(cfg, history) && run < |Replay(cfg, history).runs|
    requires Terminal(Replay(cfg, history).runs[run].status)
    ensures Replay(cfg, history).runs[run].lease.None?
  {
    EveryHistoryIsSafe(cfg, history);
  }

  // ---- The calls themselves ---------------------------------------------------------------------

  /** A heartbeat is accepted exactly from the holder of a lease that stands, and then moves its expiry. */
  lemma BeatExactly(db: Db, run: Id, owner: string, duration: Time, now: Time, step: Step)
    requires step == Heartbeat(db, run, owner, duration, now)
    ensures step.out.Ok? <==>
            && run < |db.runs| && duration > 0 && db.runs[run].lease.Some?
            && db.runs[run].lease.value.owner == owner && now < db.runs[run].lease.value.expires
            && (db.runs[run].status == Dispatching || db.runs[run].status == Running)
    ensures step.out.Ok? ==>
              && step.out == Ok(run, false) && Extended(db.runs[run], step.db.runs[run], owner, duration, now)
              && step.db == db.(runs := db.runs[run := step.db.runs[run]])
    ensures step.out.Refused? ==> step.db == db
  {
  }

  /** So is giving a run back, which may be claimed again from the given time on. */
  lemma DropExactly(db: Db, run: Id, owner: string, next: Time, now: Time, step: Step)
    requires step == Release(db, run, owner, next, now)
    ensures step.out.Ok? <==>
            && run < |db.runs| && db.runs[run].lease.Some?
            && db.runs[run].lease.value.owner == owner && now < db.runs[run].lease.value.expires
            && (db.runs[run].status == Dispatching || db.runs[run].status == Running)
    ensures step.out.Ok? ==>
              && step.db.runs == db.runs[run := db.runs[run].(lease := None, nextAttemptAt := next)]
              && step.db == db.(runs := step.db.runs, audit := step.db.audit)
              && step.db.audit == db.audit + [Audit(owner, "run.lease_released", RunRow(run))]
    ensures step.out.Refused? ==> step.db == db
  {
  }

  /** The run is under way, due and leased to nobody. */
  predicate Available(run: Run, now: Time) {
    && (run.status == Dispatching || run.status == Running) && run.nextAttemptAt <= now
    && (run.lease.Some? ==> run.lease.value.expires <= now)
  }

  lemma AvailableAlike(runs: seq<Run>, now: Time)
    ensures forall i: Id :: i < |runs| ==> (Available(runs[i], now) <==> Claimable(runs[i], now))
  {
  }

  /** What a claim that finds nothing wrong with its arguments takes. */
  lemma ClaimExactly(
    db: Db, owner: string, duration: Time, limit: int, locked: set<Id>, now: Time, step: Step)
    returns (ids: seq<Id>)
    requires step == ClaimRuns(db, owner, duration, limit, locked, now)
    requires limit >= 1 && duration > 0 && !Blank(owner)
    ensures step.out == Ok(|ids|, false) && |ids| <= limit && |step.db.runs| == |db.runs|
    ensures forall k :: 0 <= k < |ids| ==>
              ids[k] < |db.runs| && ids[k] !in locked && Available(db.runs[ids[k]], now)
    ensures forall j, k :: 0 <= j < k < |ids| ==> Sooner(db.runs, ids[j], ids[k])
    ensures forall i: Id :: i < |db.runs| && Available(db.runs[i], now) && i !in locked && i !in ids ==>
              |ids| == limit && forall k :: 0 <= k < |ids| ==> Sooner(db.runs, ids[k], i)
    ensures forall i: Id :: i < |db.runs| ==>
              if i in ids then Granted(db.runs[i], step.db.runs[i], owner, duration, now)
              else step.db.runs[i] == db.runs[i]
    ensures step.db == db.(runs := step.db.runs, audit := step.db.audit)
  {
    hide ClaimEach, ClaimQuery, Granted, Sooner;
    ids := ClaimQuery(db.runs, locked, now, limit);
    ClaimQueryShape(db.runs, locked, now, limit);
    ClaimQueryDistinct(db.runs, locked, now, limit, ids);
    ClaimEachSteps(db, ids, owner, duration, now);
    AvailableAlike(db.runs, now);
  }

  // ---- Until the expiry -------------------------------------------------------------------------

  /** Nothing in the calls reaches the expiry of the lease, and no heartbeat moves it. */
  predicate Before(future: seq<Event>, run: Id, expires: Time) {
    forall k :: 0 <= k < |future| ==> future[k].now < expires && !(future[k].cmd.Beat? && future[k].cmd.run == run)
  }

  predicate HeldBy(db: Db, run: Id, lease: Lease, attempts: nat) {
    run < |db.runs| && db.runs[run].lease == Some(lease) && db.runs[run].dispatchAttempts == attempts
  }

  /** The lease was given up at some point of the future. */
  ghost predicate GivenUp(cfg: Settings, past: seq<Event>, future: seq<Event>, run: Id) {
    exists k :: 0 <= k <= |future| && LetGo(Replay(cfg, past + future[..k]), run)
  }

  predicate LetGo(db: Db, run: Id) {
    run < |db.runs| && db.runs[run].lease.None?
  }

  lemma HeldOrLetGo(cfg: Settings, db: Db, e: Event, run: Id, lease: Lease, attempts: nat, step: Step)
    requires Inv(cfg, db) && HeldBy(db, run, lease, attempts) && step == Apply(cfg, db, e.cmd, e.now)
    requires e.now < lease.expires && !(e.cmd.Beat? && e.cmd.run == run)
    ensures HeldBy(step.db, run, lease, attempts) || LetGo(step.db, run)
  {
    hide Inv, Apply;
    CallSteps(cfg, db, e, step);
    assert LeaseStep(run, db.runs[run], step.db.runs[run], e.cmd, e.now);
  }

  /**
    A lease holds until it expires: before that, and unless it was given up in between, the run is still its
    holder's and nobody has claimed it. With `BeatExactly` a heartbeat at `now` makes that `now + duration`.
   */
  lemma {:induction false} HeldUntilExpiry(
    cfg: Settings, past: seq<Event>, future: seq<Event>, run: Id, lease: Lease, attempts: nat)
    requires Guarded(cfg, past + future) && HeldBy(Replay(cfg, past), run, lease, attempts)
    requires Before(future, run, lease.expires)
    ensures HeldBy(Replay(cfg, past + future), run, lease, attempts) || GivenUp(cfg, past, future, run)
  {
    if future == [] {
      assert past + future == past;
    } else {
      hide Inv, Apply, HeldBy, LetGo;
      var init, last := future[..|future| - 1], future[|future| - 1];
      ReplaySplit(cfg, past, future);
      HeldUntilExpiry(cfg, past, init, run, lease, attempts);
      if k :| 0 <= k <= |init| && LetGo(Replay(cfg, past + init[..k]), run) {
        assert init[..k] == future[..k];
      } else {
        var before := Replay(cfg, past + init);
        EveryHistoryIsSafe(cfg, past + init);
        HeldOrLetGo(cfg, before, last, run, lease, attempts, Apply(cfg, before, last.cmd, last.now));
        assert future[..|future|] == future;
      }
    }
  }
}
