/**
  Dispatchers at work: any number of them claim runs, start them on a worker, crash, lose their
  leases and hand over, in any order. A job is one claim being worked off.
 */
module Dispatching {
  import opened Tables
  import opened Records
  import opened Controls
  import opened Lifecycle
  import opened Invariants
  import opened Preservation
  import opened Histories
  import opened Identity
  import opened Leases

  /** A run as the worker knows it; `key` is the idempotency key it was submitted with. */
  datatype Remote = Remote(key: Option<Key>, id: string)

  function Submitted(key: Key): Remote -> bool {
    (r: Remote) => r.key == Some(key)
  }

  datatype Begun = Begun(worker: seq<Remote>, id: string)

  /** `POST /v1/runs` on a worker that deduplicates on the idempotency key; `candidate` is the id it would choose. */
  function StartRun(worker: seq<Remote>, key: Option<Key>, candidate: string): Begun {
    match key
    case None => Begun(worker + [Remote(None, candidate)], candidate)
    case Some(k) =>
      match Last(worker, Submitted(k))
      case Some(i) => Begun(worker, worker[i].id)
      case None => Begun(worker + [Remote(key, candidate)], candidate)
  }

  /** The `n`-th claim of a run. */
  datatype Ticket = Ticket(run: Id, claim: nat)

  datatype Desk =
    | Waiting
    | Opened(known: Option<string>)
    | Started(remote: string)
    | Judged(attempts: nat, retryable: bool, code: string, message: string)

  datatype Job = Job(owner: string, desk: Desk)

  /** `released` remembers the claims given back by error handling. */
  datatype Site = Site(db: Db, worker: seq<Remote>, jobs: map<Ticket, Job>, released: set<Ticket>)

  datatype Action =
    | Serve(cmd: Command)
    | Poll(owner: string, duration: Time, limit: int, locked: set<Id>)
    | Open(ticket: Ticket)
    | Start(ticket: Ticket, candidate: string)
    | Save(ticket: Ticket)
    | Fail(ticket: Ticket, retryable: bool, code: string, message: string)
    | Decide(ticket: Ticket, cat: Catalog, next: Time)
    | Leave(ticket: Ticket)

  /** What the row says about the worker's side of the run. */
  function ReportOf(run: Run): Report {
    Report(run.workerRunId, run.usage, run.details, run.effectiveProfile)
  }

  /** The tickets of a poll: one for each run it claimed. */
  function Tickets(runs: seq<Run>, ids: seq<Id>): set<Ticket> {
    set i | i in ids && i < |runs| :: Ticket(i, runs[i].dispatchAttempts)
  }

  function SetDesk(site: Site, t: Ticket, desk: Desk): Site
    requires t in site.jobs
  {
    site.(jobs := site.jobs[t := site.jobs[t].(desk := desk)])
  }

  function PollRuns(site: Site, owner: string, duration: Time, limit: int, locked: set<Id>, now: Time): Site {
    var step := ClaimRuns(site.db, owner, duration, limit, locked, now);
    if step.out.Refused? then site
    else
      var tickets := Tickets(step.db.runs, ClaimQuery(site.db.runs, locked, now, limit));
      site.(db := step.db, jobs := site.jobs + map t | t in tickets :: Job(owner, Waiting))
  }

  /** Recording an error keeps the agent's hand-over and reads the number of attempts so far. */
  function RecordFailure(site: Site, t: Ticket, retryable: bool, code: string, message: string): Site
    requires t in site.jobs && t.run < |site.db.runs|
  {
    var row := site.db.runs[t.run];
    var report := ReportOf(row).(details := Details(message, None, None, None));
    SetDesk(site.(db := Observe(site.db, t.run, report).db), t, Judged(row.dispatchAttempts, retryable, code, message))
  }

  function GiveBack(site: Site, t: Ticket, owner: string, next: Time, now: Time): Site {
    var step := Release(site.db, t.run, owner, next, now);
    site.(db := step.db, jobs := site.jobs - {t},
          released := if step.out.Ok? then site.released + {t} else site.released)
  }

  function GiveUp(
    cfg: Settings, site: Site, t: Ticket, cat: Catalog, owner: string, code: string, message: string, now: Time): Site
  {
    site.(db := Apply(cfg, site.db, Move(cat, t.run, Failed, owner, Some(code), Some(message)), now).db,
          jobs := site.jobs - {t})
  }

  /** Retry by giving the lease back, or else fail the run; either way the job is over. */
  function Conclude(cfg: Settings, site: Site, t: Ticket, cat: Catalog, next: Time, now: Time): Site
    requires t in site.jobs && site.jobs[t].desk.Judged? && t.run < |site.db.runs|
  {
    var job := site.jobs[t];
    if Retries(cfg, job.desk) then GiveBack(site, t, job.owner, next, now)
    else if site.db.runs[t.run].status in {Dispatching, Running} then
      GiveUp(cfg, site, t, cat, job.owner, job.desk.code, job.desk.message, now)
    else site.(jobs := site.jobs - {t})
  }

  /** Whether the conclusion hands the lease back rather than ending the run. */
  predicate Retries(cfg: Settings, desk: Desk)
    requires desk.Judged?
  {
    desk.retryable && desk.attempts < cfg.maxRetries + 1
  }

  /** The error that escapes from the conclusion, if its one call is refused. */
  function Refusal(cfg: Settings, site: Site, t: Ticket, cat: Catalog, next: Time, now: Time): Option<string>
    requires t in site.jobs && site.jobs[t].desk.Judged? && t.run < |site.db.runs|
  {
    var job := site.jobs[t];
    var out :=
      if Retries(cfg, job.desk) then Release(site.db, t.run, job.owner, next, now).out
      else if site.db.runs[t.run].status in {Dispatching, Running} then
        TransitionRun(cfg, cat, site.db, t.run, Failed, job.owner, Some(job.desk.code), Some(job.desk.message), now).out
      else Ok(t.run, false);
    if out.Refused? then Some(out.code) else None
  }

  /** One transaction or remote call of somebody. */
  function Act(cfg: Settings, site: Site, action: Action, now: Time): Site {
    match action
    case Serve(cmd) => site.(db := Apply(cfg, site.db, cmd, now).db)
    case Poll(owner, duration, limit, locked) => PollRuns(site, owner, duration, limit, locked, now)
    case Open(t) =>
      if t in site.jobs && t.run < |site.db.runs| && site.jobs[t].desk.Waiting?
      then SetDesk(site, t, Opened(site.db.runs[t.run].workerRunId)) else site
    case Start(t, candidate) =>
      if t in site.jobs && t.run < |site.db.runs| && site.jobs[t].desk == Opened(None) then
        var begun := StartRun(site.worker, Some(site.db.runs[t.run].key), candidate);
        SetDesk(site.(worker := begun.worker), t, Started(begun.id))
      else site
    case Save(t) =>
      if t in site.jobs && t.run < |site.db.runs| && site.jobs[t].desk.Started? then
        var id := site.jobs[t].desk.remote;
        var report := ReportOf(site.db.runs[t.run]).(workerRunId := Some(id));
        SetDesk(site.(db := Observe(site.db, t.run, report).db), t, Opened(Some(id)))
      else site
    case Fail(t, retryable, code, message) =>
      if t in site.jobs && t.run < |site.db.runs| then RecordFailure(site, t, retryable, code, message) else site
    case Decide(t, cat, next) =>
      if t in site.jobs && t.run < |site.db.runs| && site.jobs[t].desk.Judged?
      then Conclude(cfg, site, t, cat, next, now) else site
    case Leave(t) => site.(jobs := site.jobs - {t})
  }

  /** Claims are made by polling, remote ids are written by saving, and approvals are decided safely. */
  predicate Orderly(site: Site, action: Action, now: Time) {
    action.Serve? ==>
      && !action.cmd.Claim? && !NamesRemote(site.db, action.cmd) && Safe(site.db, At(action.cmd, now))
  }

  // ---- The invariant --------------------------------------------------------------------------

  ghost predicate Deduplicated(worker: seq<Remote>) {
    forall i, j :: 0 <= i < j < |worker| && worker[i].key.Some? ==> worker[i].key != worker[j].key
  }

  ghost predicate Serves(worker: seq<Remote>, key: Key, id: string) {
    exists i :: 0 <= i < |worker| && worker[i] == Remote(Some(key), id)
  }

  ghost predicate TicketValid(db: Db, t: Ticket) {
    t.run < |db.runs| && 1 <= t.claim <= db.runs[t.run].dispatchAttempts
  }

  ghost predicate JobValid(site: Site, t: Ticket)
    requires t in site.jobs
  {
    && TicketValid(site.db, t)
    && match site.jobs[t].desk
       case Started(id) => Serves(site.worker, site.db.runs[t.run].key, id)
       case Judged(attempts, _, _, _) => t.claim <= attempts
       case _ => true
  }

  ghost predicate Manned(cfg: Settings, site: Site) {
    Inv(cfg, site.db) && Crewed(cfg, site)
  }

  ghost predicate Crewed(cfg: Settings, site: Site) {
    && Deduplicated(site.worker)
    && (forall r :: 0 <= r < |site.db.runs| && site.db.runs[r].workerRunId.Some? ==>
          Serves(site.worker, site.db.runs[r].key, site.db.runs[r].workerRunId.value))
    && (forall t :: t in site.jobs ==> JobValid(site, t))
    && (forall t :: t in site.released ==>
          TicketValid(site.db, t) && t.claim <= cfg.maxRetries && t !in site.jobs)
  }

  lemma StartServes(worker: seq<Remote>, key: Key, candidate: string, begun: Begun)
    requires Deduplicated(worker) && begun == StartRun(worker, Some(key), candidate)
    ensures Deduplicated(begun.worker) && Serves(begun.worker, key, begun.id)
    ensures |worker| <= |begun.worker| && begun.worker[..|worker|] == worker
  {
    match Last(worker, Submitted(key))
    case Some(i) => assert worker[i] == Remote(Some(key), begun.id);
    case None =>
      assert begun.worker[|worker|] == Remote(Some(key), begun.id);
      assert forall i :: 0 <= i < |worker| ==> !Submitted(key)(worker[i]);
  }

  lemma ServesKept(worker: seq<Remote>, more: seq<Remote>, key: Key, id: string)
    requires Serves(worker, key, id) && |worker| <= |more| && more[..|worker|] == worker
    ensures Serves(more, key, id)
  {
    var i :| 0 <= i < |worker| && worker[i] == Remote(Some(key), id);
    assert more[i] == more[..|worker|][i];
  }

  lemma ServesOnce(worker: seq<Remote>, key: Key, a: string, b: string)
    requires Deduplicated(worker) && Serves(worker, key, a) && Serves(worker, key, b)
    ensures a == b
  {
  }

  // ---- Every action keeps it ------------------------------------------------------------------

  /** What an action on the tables may do to runs as far as jobs are concerned. */
  ghost predicate Carried(db: Db, after: Db) {
    && |db.runs| <= |after.runs|
    && (forall r :: 0 <= r < |db.runs| ==>
          && after.runs[r].key == db.runs[r].key && after.runs[r].workerRunId == db.runs[r].workerRunId
          && db.runs[r].dispatchAttempts <= after.runs[r].dispatchAttempts)
    && (forall r :: |db.runs| <= r < |after.runs| ==> after.runs[r].workerRunId.None?)
  }

  lemma CallCarries(cfg: Settings, db: Db, cmd: Command, now: Time, step: Step)
    requires Inv(cfg, db) && !NamesRemote(db, cmd) && step == Apply(cfg, db, cmd, now)
    ensures Carried(db, step.db)
  {
    ApplyExtends(cfg, db, cmd, now, step);
    CallSteps(cfg, db, At(cmd, now), step);
    StepsCarry(db, step.db, cmd, now);
  }

  lemma StepsCarry(db: Db, after: Db, cmd: Command, now: Time)
    requires Extends(db, after) && SameRemotes(db, after) && LeaseSteps(db, after, cmd, now)
    ensures Carried(db, after)
  {
    forall r: Id | r < |db.runs|
      ensures db.runs[r].dispatchAttempts <= after.runs[r].dispatchAttempts
    {
      assert LeaseStep(r, db.runs[r], after.runs[r], cmd, now);
    }
  }

  lemma CarriedKeepsCrew(cfg: Settings, site: Site, after: Site)
    requires Crewed(cfg, site) && Carried(site.db, after.db)
    requires after == site.(db := after.db)
    ensures Crewed(cfg, after)
  {
    forall t | t in after.jobs ensures JobValid(after, t) {
      assert JobValid(site, t);
    }
  }

  lemma ServeStep(cfg: Settings, site: Site, cmd: Command, now: Time, step: Step, after: Site)
    requires Manned(cfg, site) && !NamesRemote(site.db, cmd) && Safe(site.db, At(cmd, now))
    requires step == Apply(cfg, site.db, cmd, now) && after == site.(db := step.db)
    ensures Manned(cfg, after) && Carried(site.db, after.db)
  {
    CallCarries(cfg, site.db, cmd, now, step);
    StepKeepsInv(cfg, site.db, At(cmd, now), step);
    CarriedKeepsCrew(cfg, site, after);
  }

  /** Giving up or changing a job never hurts, as long as what the desk says is true. */
  lemma JobStep(cfg: Settings, site: Site, after: Site)
    requires Crewed(cfg, site) && after == site.(jobs := after.jobs)
    requires forall t :: t in after.jobs ==> t in site.jobs && JobValid(after, t)
    ensures Crewed(cfg, after)
  {
  }

  lemma LeaveStep(cfg: Settings, site: Site, t: Ticket, after: Site)
    requires Crewed(cfg, site) && after == site.(jobs := site.jobs - {t})
    ensures Crewed(cfg, after)
  {
    forall u | u in after.jobs ensures JobValid(after, u) {
      assert JobValid(site, u);
    }
    JobStep(cfg, site, after);
  }

  lemma OpenStep(cfg: Settings, site: Site, t: Ticket, desk: Desk, after: Site)
    requires Crewed(cfg, site) && t in site.jobs && (desk.Waiting? || desk.Opened?)
    requires after == SetDesk(site, t, desk)
    ensures Crewed(cfg, after)
  {
    forall u | u in after.jobs ensures JobValid(after, u) {
      assert JobValid(site, u);
    }
    JobStep(cfg, site, after);
  }

  lemma StartStep(cfg: Settings, site: Site, t: Ticket, candidate: string, begun: Begun, after: Site)
    requires Crewed(cfg, site) && t in site.jobs && t.run < |site.db.runs|
    requires begun == StartRun(site.worker, Some(site.db.runs[t.run].key), candidate)
    requires after == SetDesk(site.(worker := begun.worker), t, Started(begun.id))
    ensures Crewed(cfg, after)
  {
    StartServes(site.worker, site.db.runs[t.run].key, candidate, begun);
    forall key, id | Serves(site.worker, key, id) ensures Serves(begun.worker, key, id) {
      ServesKept(site.worker, begun.worker, key, id);
    }
    forall u | u in after.jobs ensures JobValid(after, u) {
      assert JobValid(site, u);
    }
  }

  lemma NoteShape(db: Db, run: Id, report: Report, after: Db)
    requires run < |db.runs| && after == Observe(db, run, report).db
    ensures after == db.(runs := db.runs[run := after.runs[run]])
    ensures after.runs[run].key == db.runs[run].key && after.runs[run].workerRunId == report.workerRunId
    ensures after.runs[run].dispatchAttempts == db.runs[run].dispatchAttempts
  {
  }

  lemma NoteKeepsInv(cfg: Settings, db: Db, run: Id, report: Report, after: Db)
    requires Inv(cfg, db) && after == Observe(db, run, report).db
    ensures Inv(cfg, after)
  {
    ObserveIsQuiet(db, run, report);
    QuietKeepsInv(cfg, db, after);
  }

  /** One run row and the desk of one of its jobs were rewritten. */
  lemma RowStep(cfg: Settings, site: Site, t: Ticket, row: Run, desk: Desk, after: Site)
    requires Crewed(cfg, site) && t in site.jobs && t.run < |site.db.runs|
    requires after.db.runs == site.db.runs[t.run := row] && after == SetDesk(site.(db := after.db), t, desk)
    requires row.key == site.db.runs[t.run].key && row.dispatchAttempts == site.db.runs[t.run].dispatchAttempts
    requires row.workerRunId.Some? ==> Serves(site.worker, row.key, row.workerRunId.value)
    requires !desk.Started? && (desk.Judged? ==> t.claim <= desk.attempts)
    ensures Crewed(cfg, after)
  {
    assert JobValid(site, t);
    forall u | u in after.jobs ensures JobValid(after, u) {
      assert JobValid(site, u);
    }
  }

  lemma SaveStep(cfg: Settings, site: Site, t: Ticket, id: string, report: Report, noted: Db, after: Site)
    requires Crewed(cfg, site) && t in site.jobs && t.run < |site.db.runs| && site.jobs[t].desk == Started(id)
    requires report.workerRunId == Some(id) && noted == Observe(site.db, t.run, report).db
    requires after == SetDesk(site.(db := noted), t, Opened(Some(id)))
    ensures Crewed(cfg, after)
  {
    NoteShape(site.db, t.run, report, noted);
    assert JobValid(site, t);
    RowStep(cfg, site, t, noted.runs[t.run], Opened(Some(id)), after);
  }

  /** Saving can only repeat the remote id that is already on record. */
  lemma SaveAgrees(cfg: Settings, site: Site, t: Ticket, id: string)
    requires Crewed(cfg, site) && t in site.jobs && t.run < |site.db.runs| && site.jobs[t].desk == Started(id)
    ensures site.db.runs[t.run].workerRunId.Some? ==> site.db.runs[t.run].workerRunId == Some(id)
  {
    assert JobValid(site, t);
    if site.db.runs[t.run].workerRunId.Some? {
      ServesOnce(site.worker, site.db.runs[t.run].key, id, site.db.runs[t.run].workerRunId.value);
    }
  }

  lemma FailStep(
    cfg: Settings, site: Site, t: Ticket, desk: Desk, report: Report, noted: Db, after: Site)
    requires Crewed(cfg, site) && t in site.jobs && t.run < |site.db.runs|
    requires report.workerRunId == site.db.runs[t.run].workerRunId && noted == Observe(site.db, t.run, report).db
    requires desk.Judged? && desk.attempts == site.db.runs[t.run].dispatchAttempts
    requires after == SetDesk(site.(db := noted), t, desk)
    ensures Crewed(cfg, after)
  {
    NoteShape(site.db, t.run, report, noted);
    assert JobValid(site, t);
    RowStep(cfg, site, t, noted.runs[t.run], desk, after);
  }

  // ---- Claims and conclusions -----------------------------------------------------------------

  /** What claiming leaves behind: each claimed run has one more attempt, and nothing else that matters changed. */
  lemma ClaimedShape(db: Db, ids: seq<Id>, owner: string, now: Time, expires: Time, claimed: Db)
    requires forall k :: 0 <= k < |ids| ==> ids[k] < |db.runs|
    requires forall j, k :: 0 <= j < k < |ids| ==> ids[j] != ids[k]
    requires claimed == ClaimEach(db, ids, owner, now, expires)
    ensures |claimed.runs| == |db.runs| && forall i :: i in ids ==> i < |db.runs|
    ensures forall i :: 0 <= i < |db.runs| ==>
              && claimed.runs[i].key == db.runs[i].key && claimed.runs[i].workerRunId == db.runs[i].workerRunId
              && claimed.runs[i].dispatchAttempts == db.runs[i].dispatchAttempts + (if i in ids then 1 else 0)
  {
    ClaimEachShape(db, ids, owner, now, expires);
  }

  lemma PollShape(
    db: Db, owner: string, duration: Time, limit: int, locked: set<Id>, now: Time, step: Step, ids: seq<Id>)
    requires step == ClaimRuns(db, owner, duration, limit, locked, now) && step.out.Ok?
    requires limit >= 1 && ids == ClaimQuery(db.runs, locked, now, limit)
    ensures |step.db.runs| == |db.runs| && forall i :: i in ids ==> i < |db.runs|
    ensures forall i :: 0 <= i < |db.runs| ==>
              && step.db.runs[i].key == db.runs[i].key && step.db.runs[i].workerRunId == db.runs[i].workerRunId
              && step.db.runs[i].dispatchAttempts == db.runs[i].dispatchAttempts + (if i in ids then 1 else 0)
  {
    ClaimQueryDistinct(db.runs, locked, now, limit, ids);
    ClaimedShape(db, ids, owner, now, now + duration, step.db);
  }

  lemma PollStep(
    cfg: Settings, site: Site, owner: string, duration: Time, limit: int, locked: set<Id>, now: Time, after: Site)
    requires Manned(cfg, site) && after == PollRuns(site, owner, duration, limit, locked, now)
    ensures Manned(cfg, after) && Carried(site.db, after.db)
  {
    var step := ClaimRuns(site.db, owner, duration, limit, locked, now);
    if step.out.Ok? {
      var ids := ClaimQuery(site.db.runs, locked, now, limit);
      PollShape(site.db, owner, duration, limit, locked, now, step, ids);
      ClaimIsQuiet(site.db, owner, duration, limit, locked, now);
      QuietKeepsInv(cfg, site.db, step.db);
      ClaimedStep(cfg, site, owner, ids, step.db, Tickets(step.db.runs, ids), after);
    }
  }

  lemma ClaimedStep(
    cfg: Settings, site: Site, owner: string, ids: seq<Id>, claimed: Db, tickets: set<Ticket>, after: Site)
    requires Crewed(cfg, site) && |claimed.runs| == |site.db.runs|
    requires forall i :: i in ids ==> i < |site.db.runs|
    requires forall i :: 0 <= i < |site.db.runs| ==>
               && claimed.runs[i].key == site.db.runs[i].key
               && claimed.runs[i].workerRunId == site.db.runs[i].workerRunId
               && claimed.runs[i].dispatchAttempts == site.db.runs[i].dispatchAttempts + (if i in ids then 1 else 0)
    requires tickets == Tickets(claimed.runs, ids)
    requires after == site.(db := claimed, jobs := site.jobs + map t | t in tickets :: Job(owner, Waiting))
    ensures Crewed(cfg, after) && Carried(site.db, after.db)
  {
    forall t | t in after.jobs ensures JobValid(after, t) {
      if t !in tickets {
        assert JobValid(site, t);
      }
    }
    forall t | t in after.released ensures TicketValid(after.db, t) && t !in after.jobs {
      assert TicketValid(site.db, t);
    }
  }

  /** Failing the run for good is an ordinary move. */
  lemma GiveUpStep(
    cfg: Settings, site: Site, t: Ticket, cat: Catalog, owner: string, code: string, message: string, now: Time,
    after: Site)
    requires Manned(cfg, site) && after == GiveUp(cfg, site, t, cat, owner, code, message, now)
    ensures Manned(cfg, after) && Carried(site.db, after.db)
  {
    var cmd := Move(cat, t.run, Failed, owner, Some(code), Some(message));
    var step := Apply(cfg, site.db, cmd, now);
    var served := site.(db := step.db);
    ServeStep(cfg, site, cmd, now, step, served);
    LeaveStep(cfg, served, t, after);
  }

  lemma ReleasedStep(cfg: Settings, site: Site, t: Ticket, after: Site)
    requires Crewed(cfg, site) && TicketValid(site.db, t) && t.claim <= cfg.maxRetries
    requires after == site.(jobs := site.jobs - {t}, released := site.released + {t})
    ensures Crewed(cfg, after)
  {
    LeaveStep(cfg, site, t, site.(jobs := site.jobs - {t}));
    forall u | u in after.jobs ensures JobValid(after, u) {
      assert JobValid(site, u);
    }
  }

  /** Giving the lease back spends a claim whose number is at most the number of retries. */
  lemma GiveBackStep(cfg: Settings, site: Site, t: Ticket, owner: string, next: Time, now: Time, after: Site)
    requires Manned(cfg, site) && TicketValid(site.db, t) && t.claim <= cfg.maxRetries
    requires after == GiveBack(site, t, owner, next, now)
    ensures Manned(cfg, after) && Carried(site.db, after.db)
  {
    hide Inv;
    var step := Release(site.db, t.run, owner, next, now);
    var served := site.(db := step.db);
    ServeStep(cfg, site, Drop(t.run, owner, next), now, step, served);
    if step.out.Ok? {
      ReleasedStep(cfg, served, t, after);
    } else {
      LeaveStep(cfg, served, t, after);
    }
  }

  lemma ConcludeStep(cfg: Settings, site: Site, t: Ticket, cat: Catalog, next: Time, now: Time, after: Site)
    requires Manned(cfg, site) && t in site.jobs && site.jobs[t].desk.Judged? && t.run < |site.db.runs|
    requires after == Conclude(cfg, site, t, cat, next, now)
    ensures Manned(cfg, after) && Carried(site.db, after.db)
  {
    var job := site.jobs[t];
    assert JobValid(site, t);
    if Retries(cfg, job.desk) {
      GiveBackStep(cfg, site, t, job.owner, next, now, after);
    } else if site.db.runs[t.run].status in {Dispatching, Running} {
      GiveUpStep(cfg, site, t, cat, job.owner, job.desk.code, job.desk.message, now, after);
    } else {
      LeaveStep(cfg, site, t, after);
    }
  }

  /** Remote ids on record stay on record. */
  ghost predicate Remembers(db: Db, after: Db) {
    && |db.runs| <= |after.runs|
    && forall r :: 0 <= r < |db.runs| ==>
         && after.runs[r].key == db.runs[r].key
         && (db.runs[r].workerRunId.Some? ==> after.runs[r].workerRunId == db.runs[r].workerRunId)
  }

  lemma NoteRemembers(db: Db, run: Id, report: Report, after: Db)
    requires run < |db.runs| && after == Observe(db, run, report).db
    requires db.runs[run].workerRunId.Some? ==> report.workerRunId == db.runs[run].workerRunId
    ensures Remembers(db, after)
  {
    NoteShape(db, run, report, after);
  }

  /** Reading the row, calling the worker and writing its answer. */
  lemma DeskStep(cfg: Settings, site: Site, action: Action, now: Time, after: Site)
    requires Manned(cfg, site) && (action.Open? || action.Start? || action.Leave?)
    requires after == Act(cfg, site, action, now)
    ensures Manned(cfg, after) && after.db == site.db
  {
    var t := action.ticket;
    if action.Leave? {
      LeaveStep(cfg, site, t, after);
    } else if after != site {
      if action.Open? {
        OpenStep(cfg, site, t, Opened(site.db.runs[t.run].workerRunId), after);
      } else {
        StartStep(cfg, site, t, action.candidate,
          StartRun(site.worker, Some(site.db.runs[t.run].key), action.candidate), after);
      }
    }
  }

  lemma WriteStep(cfg: Settings, site: Site, action: Action, now: Time, after: Site)
    requires Manned(cfg, site) && (action.Save? || action.Fail?) && after == Act(cfg, site, action, now)
    ensures Manned(cfg, after) && Remembers(site.db, after.db)
  {
    hide Inv, Crewed, Observe;
    var t := action.ticket;
    if t in site.jobs && t.run < |site.db.runs| {
      var row := site.db.runs[t.run];
      if action.Fail? {
        var report := ReportOf(row).(details := Details(action.message, None, None, None));
        var desk := Judged(row.dispatchAttempts, action.retryable, action.code, action.message);
        NoteKeepsInv(cfg, site.db, t.run, report, after.db);
        NoteRemembers(site.db, t.run, report, after.db);
        FailStep(cfg, site, t, desk, report, after.db, after);
      } else if site.jobs[t].desk.Started? {
        var id := site.jobs[t].desk.remote;
        var report := ReportOf(row).(workerRunId := Some(id));
        SaveAgrees(cfg, site, t, id);
        NoteKeepsInv(cfg, site.db, t.run, report, after.db);
        NoteRemembers(site.db, t.run, report, after.db);
        SaveStep(cfg, site, t, id, report, after.db, after);
      }
    }
  }

  /** Every action, in any state, keeps the invariant and forgets no remote id. */
  lemma ActStep(cfg: Settings, site: Site, action: Action, now: Time, after: Site)
    requires Manned(cfg, site) && Orderly(site, action, now) && after == Act(cfg, site, action, now)
    ensures Manned(cfg, after) && Remembers(site.db, after.db)
  {
    if action.Serve? {
      ServeStep(cfg, site, action.cmd, now, Apply(cfg, site.db, action.cmd, now), after);
    } else if action.Poll? {
      PollStep(cfg, site, action.owner, action.duration, action.limit, action.locked, now, after);
    } else if action.Decide? {
      if after != site {
        ConcludeStep(cfg, site, action.ticket, action.cat, action.next, now, after);
      }
    } else if action.Save? || action.Fail? {
      WriteStep(cfg, site, action, now, after);
    } else {
      DeskStep(cfg, site, action, now, after);
    }
  }

  // ---- Histories ------------------------------------------------------------------------------

  datatype Deed = Deed(action: Action, now: Time)

  const NEW_SITE: Site := Site(EMPTY, [], map[], {})

  function Work(cfg: Settings, start: Site, history: seq<Deed>): Site {
    if history == [] then start
    else
      var last := history[|history| - 1];
      Act(cfg, Work(cfg, start, history[..|history| - 1]), last.action, last.now)
  }

  predicate Disciplined(cfg: Settings, start: Site, history: seq<Deed>) {
    history == [] ||
    (&& Disciplined(cfg, start, history[..|history| - 1])
     && Orderly(Work(cfg, start, history[..|history| - 1]), history[|history| - 1].action, history[|history| - 1].now))
  }

  /** Orderly actions lead from one site to the other. */
  ghost predicate Reaches(cfg: Settings, a: Site, b: Site) {
    exists deeds: seq<Deed> :: Disciplined(cfg, a, deeds) && b == Work(cfg, a, deeds)
  }

  /** `reach` holds for every orderly action, for doing nothing, and for one thing after another. */
  ghost predicate Closed(cfg: Settings, reach: (Site, Site) -> bool) {
    && (forall a :: reach(a, a))
    && (forall a, b, c {:trigger reach(a, b), reach(b, c)} :: reach(a, b) && reach(b, c) ==> reach(a, c))
    && forall site, action, now {:trigger Act(cfg, site, action, now)} ::
         Orderly(site, action, now) ==> reach(site, Act(cfg, site, action, now))
  }

  lemma {:induction false} WorkSplit(cfg: Settings, start: Site, past: seq<Deed>, future: seq<Deed>)
    requires Disciplined(cfg, start, past) && Disciplined(cfg, Work(cfg, start, past), future)
    ensures Disciplined(cfg, start, past + future)
    ensures Work(cfg, start, past + future) == Work(cfg, Work(cfg, start, past), future)
  {
    if future == [] {
      assert past + future == past;
    } else {
      assert (past + future)[..|past + future| - 1] == past + future[..|future| - 1];
      WorkSplit(cfg, start, past, future[..|future| - 1]);
    }
  }

  lemma ReachesStep(cfg: Settings, site: Site, action: Action, now: Time, after: Site)
    requires Orderly(site, action, now) && after == Act(cfg, site, action, now)
    ensures Reaches(cfg, site, after)
  {
    var deeds := [Deed(action, now)];
    assert deeds[..|deeds| - 1] == [] && Work(cfg, site, []) == site;
    assert Disciplined(cfg, site, deeds);
    assert after == Work(cfg, site, deeds);
  }

  lemma ReachesOn(cfg: Settings, a: Site, b: Site, c: Site)
    requires Reaches(cfg, a, b) && Reaches(cfg, b, c)
    ensures Reaches(cfg, a, c)
  {
    var past: seq<Deed> :| Disciplined(cfg, a, past) && b == Work(cfg, a, past);
    var future: seq<Deed> :| Disciplined(cfg, b, future) && c == Work(cfg, b, future);
    WorkSplit(cfg, a, past, future);
  }

  lemma ReachesNothing(cfg: Settings, a: Site)
    ensures Reaches(cfg, a, a)
  {
    var none: seq<Deed> := [];
    assert Disciplined(cfg, a, none) && a == Work(cfg, a, none);
  }

  /** Histories are such a relation. */
  lemma ReachesIsClosed(cfg: Settings)
    ensures Closed(cfg, (a, b) => Reaches(cfg, a, b))
  {
    forall a ensures Reaches(cfg, a, a) {
      ReachesNothing(cfg, a);
    }
    forall a, b, c | Reaches(cfg, a, b) && Reaches(cfg, b, c) ensures Reaches(cfg, a, c) {
      ReachesOn(cfg, a, b, c);
    }
    forall site, action, now | Orderly(site, action, now) ensures Reaches(cfg, site, Act(cfg, site, action, now)) {
      ReachesStep(cfg, site, action, now, Act(cfg, site, action, now));
    }
  }

  lemma {:induction false} WorkKeepsManned(cfg: Settings, start: Site, history: seq<Deed>)
    requires Manned(cfg, start) && Disciplined(cfg, start, history)
    ensures Manned(cfg, Work(cfg, start, history)) && Remembers(start.db, Work(cfg, start, history).db)
  {
    if history != [] {
      var init, last := history[..|history| - 1], history[|history| - 1];
      WorkKeepsManned(cfg, start, init);
      ActStep(cfg, Work(cfg, start, init), last.action, last.now, Work(cfg, start, history));
    }
  }

  lemma EmptyCrew(cfg: Settings, site: Site)
    requires site.db.runs == [] && site.worker == [] && site.jobs == map[] && site.released == {}
    ensures Crewed(cfg, site)
  {
  }

  lemma NewSiteIsManned(cfg: Settings)
    ensures Manned(cfg, NEW_SITE)
  {
    EmptyInv(cfg);
    EmptyCrew(cfg, NEW_SITE);
  }

  /**
    At most one remote run per local run. Whatever dispatchers crash, lose their leases or work on the
    same run at once, the worker holds at most one run submitted under its key, and if the row names a
    remote run, it is that one, and it stays named for ever.
   */
  lemma OneRemoteRun(cfg: Settings, history: seq<Deed>, future: seq<Deed>, site: Site, run: Id)
    requires Disciplined(cfg, NEW_SITE, history) && site == Work(cfg, NEW_SITE, history)
    requires Disciplined(cfg, site, future) && run < |site.db.runs|
    ensures Count(site.worker, Submitted(site.db.runs[run].key)) <= 1
    ensures site.db.runs[run].workerRunId.Some? ==>
              && Remote(Some(site.db.runs[run].key), site.db.runs[run].workerRunId.value) in site.worker
              && run < |Work(cfg, site, future).db.runs|
              && Work(cfg, site, future).db.runs[run].workerRunId == site.db.runs[run].workerRunId
  {
    NewSiteIsManned(cfg);
    WorkKeepsManned(cfg, NEW_SITE, history);
    WorkKeepsManned(cfg, site, future);
    CrewServesOnce(cfg, site, run);
  }

  lemma CrewServesOnce(cfg: Settings, site: Site, run: Id)
    requires Crewed(cfg, site) && run < |site.db.runs|
    ensures Count(site.worker, Submitted(site.db.runs[run].key)) <= 1
    ensures site.db.runs[run].workerRunId.Some? ==>
              Remote(Some(site.db.runs[run].key), site.db.runs[run].workerRunId.value) in site.worker
  {
    SubmittedOnce(site.worker, site.db.runs[run].key);
  }

  lemma {:induction false} SubmittedOnce(worker: seq<Remote>, key: Key)
    requires Deduplicated(worker)
    ensures Count(worker, Submitted(key)) <= 1
  {
    if worker != [] {
      var last := |worker| - 1;
      SubmittedOnce(worker[..last], key);
      if Submitted(key)(worker[last]) {
        CountZero(worker[..last], Submitted(key));
      }
    }
  }

  /**
    Submitting again is harmless exactly when the submission carries a key. `execute_run_via_hermes`
    sends none, so a crash between its call and its commit leaves a remote run that the next attempt repeats.
   */
  lemma RepeatsAreHarmlessWithKeysOnly(worker: seq<Remote>, key: Option<Key>, first: string, second: string)
    ensures var once := StartRun(worker, key, first);
            var twice := StartRun(once.worker, key, second);
            twice.worker == once.worker <==> key.Some?
  {
    if key.Some? {
      var once := StartRun(worker, key, first);
      assert Last(worker, Submitted(key.value)).None? ==> Submitted(key.value)(once.worker[|worker|]);
    }
  }

  // ---- Retries --------------------------------------------------------------------------------

  lemma {:induction false} DistinctClaims(claims: set<nat>, n: nat)
    requires forall c :: c in claims ==> 1 <= c <= n
    ensures |claims| <= n
    decreases n
  {
    if claims != {} && n > 0 {
      DistinctClaims(claims - {n}, n - 1);
    } else if n == 0 {
      assert forall c :: c !in claims;
    }
  }

  function ClaimsOf(tickets: set<Ticket>, run: Id): set<nat> {
    set t | t in tickets && t.run == run :: t.claim
  }

  /** The deed is an error's conclusion that really gives back the lease of `run`. */
  predicate GivesBack(cfg: Settings, site: Site, deed: Deed, run: Id) {
    && deed.action.Decide?
    && var t := deed.action.ticket;
       && t.run == run && t in site.jobs && t.run < |site.db.runs| && site.jobs[t].desk.Judged?
       && Retries(cfg, site.jobs[t].desk)
       && Release(site.db, t.run, site.jobs[t].owner, deed.action.next, deed.now).out.Ok?
  }

  /** How often error handling gave the run back. */
  function TimesGivenBack(cfg: Settings, start: Site, history: seq<Deed>, run: Id): nat {
    if history == [] then 0
    else
      var init := history[..|history| - 1];
      TimesGivenBack(cfg, start, init, run)
      + (if GivesBack(cfg, Work(cfg, start, init), history[|history| - 1], run) then 1 else 0)
  }

  /** Each time spends a claim of its own. */
  lemma GivingBackSpends(cfg: Settings, site: Site, deed: Deed, run: Id, after: Site)
    requires Crewed(cfg, site) && after == Act(cfg, site, deed.action, deed.now)
    ensures |ClaimsOf(after.released, run)| ==
            |ClaimsOf(site.released, run)| + (if GivesBack(cfg, site, deed, run) then 1 else 0)
  {
    hide Apply, Release, PollRuns, RecordFailure;
    if GivesBack(cfg, site, deed, run) {
      var t := deed.action.ticket;
      assert t !in site.released && t == Ticket(run, t.claim);
      assert ClaimsOf(after.released, run) == ClaimsOf(site.released, run) + {t.claim};
    } else {
      if deed.action.Poll? || deed.action.Fail? {
        PollReleasesNone(cfg, site, deed.action, deed.now);
      }
      assert forall t: Ticket :: t.run == run ==> (t in after.released <==> t in site.released);
      assert ClaimsOf(after.released, run) == ClaimsOf(site.released, run);
    }
  }

  lemma PollReleasesNone(cfg: Settings, site: Site, action: Action, now: Time)
    requires action.Poll? || action.Fail?
    ensures Act(cfg, site, action, now).released == site.released
  {
  }

  lemma {:induction false} SpentClaims(cfg: Settings, history: seq<Deed>, run: Id)
    requires Disciplined(cfg, NEW_SITE, history)
    ensures |ClaimsOf(Work(cfg, NEW_SITE, history).released, run)| == TimesGivenBack(cfg, NEW_SITE, history, run)
  {
    hide Act, Orderly, Crewed, Inv, GivesBack;
    if history != [] {
      var init := history[..|history| - 1];
      SpentClaims(cfg, init, run);
      NewSiteIsManned(cfg);
      WorkKeepsManned(cfg, NEW_SITE, init);
      GivingBackSpends(cfg, Work(cfg, NEW_SITE, init), history[|history| - 1], run, Work(cfg, NEW_SITE, history));
    }
  }

  /** Over any history, error handling gives a run back at most as often as the settings allow retries. */
  lemma ErrorRetriesAreBounded(cfg: Settings, history: seq<Deed>, run: Id)
    requires Disciplined(cfg, NEW_SITE, history)
    ensures TimesGivenBack(cfg, NEW_SITE, history, run) <= Max(0, cfg.maxRetries)
  {
    hide Work, Disciplined, Crewed, Inv, TimesGivenBack;
    NewSiteIsManned(cfg);
    WorkKeepsManned(cfg, NEW_SITE, history);
    SpentClaims(cfg, history, run);
    CrewRetriesAreBounded(cfg, Work(cfg, NEW_SITE, history), run);
  }

  lemma CrewRetriesAreBounded(cfg: Settings, site: Site, run: Id)
    requires Crewed(cfg, site)
    ensures |ClaimsOf(site.released, run)| <= Max(0, cfg.maxRetries)
  {
    forall c | c in ClaimsOf(site.released, run) ensures 1 <= c <= cfg.maxRetries {
      assert TicketValid(site.db, Ticket(run, c));
    }
    DistinctClaims(ClaimsOf(site.released, run), Max(0, cfg.maxRetries));
  }

  /** An error that may not be retried, or no longer, leaves the run neither dispatching nor running. */
  lemma LastErrorEndsTheRun(cfg: Settings, site: Site, t: Ticket, cat: Catalog, next: Time, now: Time, after: Site)
    requires Manned(cfg, site) && t in site.jobs && site.jobs[t].desk.Judged? && t.run < |site.db.runs|
    requires !site.jobs[t].desk.retryable || site.db.runs[t.run].dispatchAttempts > cfg.maxRetries
    requires site.jobs[t].desk.attempts == site.db.runs[t.run].dispatchAttempts
    requires after == Conclude(cfg, site, t, cat, next, now)
    ensures t.run < |after.db.runs| && after.db.runs[t.run].status !in {Dispatching, Running}
  {
    var job := site.jobs[t];
    var code, summary := Some(job.desk.code), Some(job.desk.message);
    if site.db.runs[t.run].status in {Dispatching, Running} {
      var step := MoveApplied(cfg, cat, site.db, t.run, Failed, job.owner, code, summary, now);
      GiveUpEnds(cfg, cat, site.db, t.run, job.owner, code, summary, now, step);
    }
  }

  lemma MoveApplied(
    cfg: Settings, cat: Catalog, db: Db, run: Id, to: Status, actor: string, code: Option<string>,
    summary: Option<string>, now: Time)
    returns (step: Step)
    ensures step == TransitionRun(cfg, cat, db, run, to, actor, code, summary, now)
    ensures step == Apply(cfg, db, Move(cat, run, to, actor, code, summary), now)
  {
    step := TransitionRun(cfg, cat, db, run, to, actor, code, summary, now);
  }

  lemma GiveUpEnds(
    cfg: Settings, cat: Catalog, db: Db, run: Id, actor: string, code: Option<string>, summary: Option<string>,
    now: Time, step: Step)
    requires Core(cfg, db) && step == TransitionRun(cfg, cat, db, run, Failed, actor, code, summary, now)
    requires run < |db.runs| && db.runs[run].status in {Dispatching, Running}
    ensures run < |step.db.runs| && step.db.runs[run].status == Failed
  {
    var row := TransitionHasEffect(cfg, cat, db, run, Failed, actor, code, summary, now, step);
    EffectRestates(db, step, run, Failed, row);
  }

  lemma EffectRestates(db: Db, step: Step, run: Id, to: Status, row: Run)
    requires TransitionEffect(db, step, run, to, row)
    ensures run < |step.db.runs| && step.db.runs[run].status == to
  {
  }
}
