/** One dispatcher process: its methods carry out the actions of module Dispatching on a live session. */
module Dispatcher {
  import opened Tables
  import opened Records
  import opened Controls
  import opened Lifecycle
  import opened Preservation
  import opened ControlPlane
  import opened Dispatching
  import opened Moves

  /** The worker's side of `POST /v1/runs`. */
  class Worker {
    var remotes: seq<Remote>

    constructor ()
      ensures remotes == []
    {
      remotes := [];
    }

    method Submit(key: Option<Key>, candidate: string) returns (id: string)
      modifies this
      ensures Begun(remotes, id) == StartRun(old(remotes), key, candidate)
    {
      if key.Some? {
        var known := Last(remotes, Submitted(key.value));
        if known.Some? {
          return remotes[known.value].id;
        }
      }
      remotes := remotes + [Remote(key, candidate)];
      id := candidate;
    }
  }

  /** What is raised when the worker, its credentials or its answers are not as they should be. */
  datatype Trouble = Trouble(retryable: bool, code: string, message: string)

  /** What became of a submission: its answer can be lost although the worker took it. */
  datatype Submission =
    | Taken(candidate: string)
    | AnswerLost(candidate: string, trouble: Trouble)
    | NotTaken(trouble: Trouble)

  /** The remote run's state as the worker reports it, and the profile it was verified to run under. */
  datatype State = State(
    status: string,
    usage: Usage,
    details: Details,
    code: Option<string>,
    summary: Option<string>,
    profile: Option<string>,
    unverified: Option<Trouble>)

  datatype Reply = Answer(state: State) | Failure(trouble: Trouble)

  /** Everything the outside answers while one run is processed. */
  datatype World = World(
    target: Option<Trouble>,
    discovery: Option<Trouble>,
    submission: Submission,
    known: Reply,
    stream: Option<Trouble>,
    last: Reply)

  /** `Escaped` is an error that leaves the processing unhandled. */
  datatype Result = LeaseLost | Troubled | Ended(status: Status) | ShutDown | Escaped(code: string)

  /** What the worker reports about a run, kept beside the agent's hand-over. */
  predicate Reported(a: Run, b: Run, state: State) {
    b == a.(usage := state.usage, details := state.details.(handoff := a.details.handoff),
            effectiveProfile := state.profile)
  }

  /** The run ended as the worker's final state says, and its row tells all of what the worker reported. */
  ghost predicate Delivered(db: Db, run: Id, state: State, handoff: Option<StoredHandoff>) {
    && run < |db.runs| && db.runs[run].task < |db.tasks|
    && var row := db.runs[run];
       && Some(row.status) == LocalStatus(state.status)
       && row.usage == state.usage && row.effectiveProfile == state.profile
       && row.errorCode == state.code && row.summary == state.summary
       && row.details == state.details.(handoff := handoff)
  }

  /** The ledger has one entry for the run, and it carries what the row says. */
  ghost predicate BookedOnce(project: string, db: Db, run: Id)
    requires run < |db.runs| && db.runs[run].task < |db.tasks|
  {
    exists e :: 0 <= e < |db.ledger|
      && Carries(project, db.tasks[db.runs[run].task], run, db.runs[run], db.ledger[e])
      && forall d :: 0 <= d < |db.ledger| && db.ledger[d].run == run ==> d == e
  }

  /** The last move of a reported run books what was reported. */
  lemma DeliveryIsBooked(
    cfg: Settings, cat: Catalog, was: Run, db: Db, run: Id, state: State, actor: string, now: Time, step: Step)
    requires run < |db.runs| && Reported(was, db.runs[run], state) && LocalStatus(state.status).Some?
    requires step == TransitionRun(cfg, cat, db, run, LocalStatus(state.status).value, actor, state.code,
                                   state.summary, now)
    requires step.out.Ok?
    ensures run < |step.db.runs| && step.db.runs[run].task < |step.db.tasks|
    ensures Delivered(step.db, run, state, was.details.handoff)
    ensures Unbooked(db, run) ==> BookedOnce(cfg.project, step.db, run)
  {
    hide TransitionRun;
    var to := LocalStatus(state.status).value;
    OkMoves(cfg, cat, db, run, to, actor, state.code, state.summary, now, step);
    if Unbooked(db, run) {
      MoveIsDone(cfg, cat, db, run, to, actor, state.code, state.summary, now, step);
      var e := |db.ledger|;
      CarriesAlike(cfg.project, db.tasks[db.runs[run].task], step.db.tasks[db.runs[run].task], run,
        step.db.runs[run], step.db.ledger[e]);
      forall d | 0 <= d < |step.db.ledger| && step.db.ledger[d].run == run ensures d == e {
        assert step.db.ledger[..e] == db.ledger;
      }
    }
  }

  lemma OkMoves(
    cfg: Settings, cat: Catalog, db: Db, run: Id, to: Status, actor: string, code: Option<string>,
    summary: Option<string>, now: Time, step: Step)
    requires step == TransitionRun(cfg, cat, db, run, to, actor, code, summary, now) && step.out.Ok?
    ensures Accepts(db, run, to) && |step.db.runs| == |db.runs| && |step.db.tasks| == |db.tasks|
    ensures step.db.runs[run].task < |step.db.tasks|
    ensures RowMoved(db.runs[run], step.db.runs[run], to, code, summary, now)
    ensures !Terminal(to) ==> step.db.ledger == db.ledger
  {
    hide RecordOutcome, Ingest;
    if Accepts(db, run, to) {
      RowIsMoved(db.runs[run], to, code, summary, now);
      var moved := Restated(db, run, to, actor, code, summary, now);
      RecordOutcomeFrame(cfg, cat, moved, run, actor, now);
      IngestFrame(cfg, RecordOutcome(cfg, cat, moved, run, actor, now), run, actor, now);
      IngestFrame(cfg, moved, run, actor, now);
    }
  }

  /** The run is under way and nothing is booked for it, so that a move the lifecycle lists is accepted. */
  predicate UnderWay(db: Db, run: Id) {
    && run < |db.runs| && db.runs[run].task < |db.tasks| && Unbooked(db, run)
    && (db.runs[run].status == Dispatching || db.runs[run].status == Running)
  }

  lemma UnderWayMoves(
    cfg: Settings, cat: Catalog, db: Db, run: Id, to: Status, actor: string, code: Option<string>,
    summary: Option<string>, now: Time, step: Step)
    requires UnderWay(db, run) && MayMove(db.runs[run].status, to)
    requires step == TransitionRun(cfg, cat, db, run, to, actor, code, summary, now)
    ensures step.out.Ok? && (to == Running ==> UnderWay(step.db, run))
  {
    hide TransitionRun, Unbooked;
    MoveIsDone(cfg, cat, db, run, to, actor, code, summary, now, step);
    if to == Running {
      LedgerUnbooked(db, step.db, run);
    }
  }

  lemma UnderWayStays(db: Db, after: Db, run: Id)
    requires UnderWay(db, run) && after.ledger == db.ledger && |after.tasks| == |db.tasks| && run < |after.runs|
    requires after.runs[run].task == db.runs[run].task && after.runs[run].status == db.runs[run].status
    ensures UnderWay(after, run)
  {
  }

  lemma IngestFrame(cfg: Settings, db: Db, run: Id, actor: string, now: Time)
    requires run < |db.runs| && db.runs[run].task < |db.tasks|
    ensures var filing := Ingest(cfg, db, run, actor, now);
            filing.Filed? ==> filing.db == db.(ledger := filing.db.ledger, audit := filing.db.audit)
  {
  }

  lemma DeliveredMeans(db: Db, run: Id, state: State, handoff: Option<StoredHandoff>)
    ensures Delivered(db, run, state, handoff) ==>
              && run < |db.runs| && db.runs[run].task < |db.tasks|
              && Some(db.runs[run].status) == LocalStatus(state.status)
  {
  }

  lemma LedgerUnbooked(db: Db, after: Db, run: Id)
    requires after.ledger == db.ledger
    ensures Unbooked(after, run) == Unbooked(db, run)
  {
  }

  // ---- Renewals -----------------------------------------------------------------------------------

  /** The lease was renewed at the first of the times, in order, and not again once it was lost. */
  predicate Renewed(news: seq<(Time, bool)>, ticks: seq<Time>) {
    && |news| <= |ticks|
    && forall k :: 0 <= k < |news| ==> news[k].0 == ticks[k] && (k + 1 < |news| ==> news[k].1)
  }

  predicate Lost(news: seq<(Time, bool)>) {
    news != [] && !news[|news| - 1].1
  }

  /** Renewals at the given times were added; the last one may have been lost, and `all` of them were made. */
  ghost predicate Renews(
    before: seq<(Time, bool)>, after: seq<(Time, bool)>, ticks: seq<Time>, lost: bool, all: bool)
  {
    && |before| <= |after| && after[..|before|] == before
    && var news := after[|before|..];
       Renewed(news, ticks) && (lost <==> Lost(news)) && (all ==> |news| == |ticks| && !lost)
  }

  lemma RenewsNone(a: seq<(Time, bool)>, ticks: seq<Time>)
    ensures Renews(a, a, ticks, false, ticks == [])
  {
  }

  lemma RenewsOnce(a: seq<(Time, bool)>, now: Time, kept: bool)
    ensures Renews(a, a + [(now, kept)], [now], !kept, kept)
  {
    assert (a + [(now, kept)])[|a|..] == [(now, kept)];
  }

  lemma RenewsOn(
    a: seq<(Time, bool)>, b: seq<(Time, bool)>, c: seq<(Time, bool)>, x: seq<Time>, y: seq<Time>, lost: bool, all: bool)
    requires Renews(a, b, x, false, true) && Renews(b, c, y, lost, all)
    ensures Renews(a, c, x + y, lost, all)
  {
    assert c[..|a|] == c[..|b|][..|a|];
    var news, more := b[|a|..], c[|b|..];
    assert c[|a|..] == news + more by {
      assert c == c[..|b|] + more;
    }
    forall k | 0 <= k < |news + more|
      ensures (news + more)[k].0 == (x + y)[k] && (k + 1 < |news + more| ==> (news + more)[k].1)
    {
    }
  }

  lemma RenewsSome(a: seq<(Time, bool)>, b: seq<(Time, bool)>, ticks: seq<Time>, lost: bool, all: bool)
    requires Renews(a, b, ticks, lost, true)
    ensures Renews(a, b, ticks, lost, all)
  {
  }

  lemma RenewsLess(
    a: seq<(Time, bool)>, b: seq<(Time, bool)>, x: seq<Time>, y: seq<Time>, lost: bool, all: bool)
    requires Renews(a, b, x, lost, all)
    ensures Renews(a, b, x + y, lost, false)
  {
  }

  /** The times at which `_process` renews: after each answer of the worker. */
  function Ticks(known: bool, terminal: bool, clock: nat -> Time): seq<Time> {
    [clock(1), if known then clock(2) else clock(3)] + LateTicks(known, terminal, clock)
  }

  function LateTicks(known: bool, terminal: bool, clock: nat -> Time): seq<Time> {
    if known && terminal then [] else [clock(6), clock(7), clock(8)]
  }

  /** The worker had ended the run before this dispatcher asked. */
  predicate EndedBefore(world: World) {
    world.known.Answer? && world.known.state.status in TERMINAL_STATES
  }

  /** The state that the run is finalised from, if it is. */
  function FinalReply(known: bool, world: World): Reply {
    if known && EndedBefore(world) then world.known else world.last
  }

  /** Nothing goes wrong outside: every question is answered, and the last answer is a verified final state. */
  predicate Smooth(known: bool, world: World) {
    && world.target.None? && world.discovery.None? && Attached(known, world) && Concludes(known, world)
  }

  predicate Attached(known: bool, world: World) {
    if known then world.known.Answer? else world.submission.Taken?
  }

  predicate Concludes(known: bool, world: World) {
    && ((known && EndedBefore(world)) || (world.stream.None? && world.last.Answer?))
    && FinalReply(known, world).Answer? && Final(FinalReply(known, world).state)
  }

  /** A final state of a run whose runtime was verified. */
  predicate Final(state: State) {
    LocalStatus(state.status).Some? && state.unverified.None?
  }

  /** A result before the worker's final state was known. */
  predicate Stops(result: Result) {
    result.LeaseLost? || result.Troubled? || result.Escaped?
  }

  function Handled(refusal: Option<string>): Result {
    match refusal
    case None => Troubled
    case Some(code) => Escaped(code)
  }

  /** What escapes from handling the error, if anything does. */
  function Judgement(
    cfg: Settings, site: Site, t: Ticket, trouble: Trouble, cat: Catalog, next: Time, now: Time, later: Time)
    : Option<string>
    requires t in site.jobs && t.run < |site.db.runs|
  {
    Refusal(cfg, RecordFailure(site, t, trouble.retryable, trouble.code, trouble.message), t, cat, next, later)
  }

  const TERMINAL_STATES: set<string> := {"completed", "failed", "cancelled"}

  function LocalStatus(remote: string): Option<Status> {
    if remote == "completed" then Some(Completed)
    else if remote == "failed" then Some(Failed)
    else if remote == "cancelled" || remote == "canceled" then Some(Cancelled)
    else None
  }

  lemma AccountingKeepsRuns(cfg: Settings, cat: Catalog, db: Db, run: Id, to: Status, actor: string, now: Time)
    requires run < |db.runs| && db.runs[run].task < |db.tasks|
    ensures var filing := Accounted(cfg, cat, db, run, to, actor, now);
            filing.Filed? ==> filing.db.runs == db.runs
  {
    RecordOutcomeFrame(cfg, cat, db, run, actor, now);
  }

  /** A move neither adds nor removes runs, and an accepted one sets the status it was asked for. */
  lemma MoveSetsStatus(
    cfg: Settings, cat: Catalog, db: Db, run: Id, to: Status, actor: string, code: Option<string>,
    summary: Option<string>, now: Time, step: Step)
    requires step == TransitionRun(cfg, cat, db, run, to, actor, code, summary, now)
    ensures |step.db.runs| == |db.runs|
    ensures step.out.Ok? ==> run < |db.runs| && step.db.runs[run].status == to
  {
    if Accepts(db, run, to) {
      AccountingKeepsRuns(cfg, cat, Restated(db, run, to, actor, code, summary, now), run, to, actor, now);
    }
  }

  /** The tickets of a claim, in its order. */
  function TicketList(runs: seq<Run>, ids: seq<Id>): (tickets: seq<Ticket>)
    requires forall k :: 0 <= k < |ids| ==> ids[k] < |runs|
    ensures |tickets| == |ids|
    ensures forall k :: 0 <= k < |ids| ==> tickets[k].run == ids[k] && tickets[k] in Tickets(runs, ids)
  {
    seq(|ids|, k requires 0 <= k < |ids| => Ticket(ids[k], runs[ids[k]].dispatchAttempts))
  }

  /** The runs a claim gets; none if its arguments are refused. */
  function ClaimedIds(
    runs: seq<Run>, owner: string, duration: Time, limit: int, locked: set<Id>, now: Time): seq<Id>
  {
    if Blank(owner) || limit < 1 || duration <= 0 then [] else ClaimQuery(runs, locked, now, limit)
  }

  /** One ticket for each of the runs, in order, and none twice. */
  ghost predicate Lists(tickets: seq<Ticket>, runs: seq<Id>) {
    && |tickets| == |runs|
    && (forall k :: 0 <= k < |runs| ==> tickets[k].run == runs[k])
    && forall j, k :: 0 <= j < k < |tickets| ==> tickets[j] != tickets[k]
  }

  /** A result for each of the runs, in order, up to an error that escaped. */
  ghost predicate Completes(results: seq<(Id, Result)>, runs: seq<Id>) {
    && |results| <= |runs| && (forall k :: 0 <= k < |results| ==> results[k].0 == runs[k])
    && (|results| < |runs| ==> results != [] && results[|results| - 1].1.Escaped?)
  }

  lemma ClaimedInRange(runs: seq<Run>, owner: string, duration: Time, limit: int, locked: set<Id>, now: Time)
    ensures var ids := ClaimedIds(runs, owner, duration, limit, locked, now);
            && (forall k :: 0 <= k < |ids| ==> ids[k] < |runs|)
            && forall j, k :: 0 <= j < k < |ids| ==> ids[j] != ids[k]
  {
    if limit >= 1 {
      ClaimQueryDistinct(runs, locked, now, limit, ClaimQuery(runs, locked, now, limit));
    }
  }

  class RunDispatcher {
    const session: Session
    const worker: Worker
    const owner: string
    var jobs: map<Ticket, Job>
    ghost var released: set<Ticket>
    /** When `_process` renewed its lease itself, and whether it still had it. */
    ghost var renewals: seq<(Time, bool)>

    constructor (session: Session, worker: Worker, owner: string)
      ensures this.session == session && this.worker == worker && this.owner == owner
      ensures jobs == map[] && released == {} && renewals == []
    {
      this.session, this.worker, this.owner := session, worker, owner;
      jobs, released, renewals := map[], {}, [];
    }

    ghost function View(): Site
      reads this, session, worker
    {
      Site(session.Snapshot(), worker.remotes, jobs, released)
    }

    /** The claim that opens `run_once`. */
    method Poll(duration: Time, limit: int, locked: set<Id>, now: Time) returns (claimed: seq<Id>)
      modifies `jobs, session
      ensures View() == Act(session.cfg, old(View()), Action.Poll(owner, duration, limit, locked), now)
      ensures claimed == ClaimedIds(old(session.runs), owner, duration, limit, locked, now)
      ensures |session.runs| == old(|session.runs|)
      ensures forall t :: t in Tickets(session.runs, claimed) ==> t in jobs && jobs[t] == Job(owner, Waiting)
    {
      ghost var before := session.Snapshot();
      var out: Outcome;
      out, claimed := session.ClaimDispatchingRuns(owner, duration, limit, locked, now);
      if out.Ok? {
        PollShape(before, owner, duration, limit, locked, now, Step(session.Snapshot(), out), claimed);
        jobs := jobs + map t | t in Tickets(session.runs, claimed) :: Job(owner, Waiting);
      }
    }

    /** Read the row; the worker is asked to start the run only if the row names no remote run. */
    method OpenRun(t: Ticket, now: Time) returns (known: Option<string>)
      requires t in jobs && t.run < |session.runs| && jobs[t].desk.Waiting?
      modifies `jobs
      ensures Apart(t)
      ensures View() == Act(session.cfg, old(View()), Open(t), now)
      ensures known == session.runs[t.run].workerRunId
      ensures t in jobs && jobs[t] == old(jobs[t]).(desk := Opened(known))
    {
      known := session.runs[t.run].workerRunId;
      jobs := jobs[t := jobs[t].(desk := Opened(known))];
    }

    method StartRemote(t: Ticket, candidate: string, now: Time) returns (id: string)
      requires t in jobs && t.run < |session.runs| && jobs[t].desk == Opened(None)
      modifies `jobs, worker
      ensures Apart(t)
      ensures View() == Act(session.cfg, old(View()), Start(t, candidate), now)
      ensures t in jobs && jobs[t].desk == Started(id)
      ensures Begun(worker.remotes, id) == StartRun(old(worker.remotes), Some(session.runs[t.run].key), candidate)
    {
      id := worker.Submit(Some(session.runs[t.run].key), candidate);
      jobs := jobs[t := jobs[t].(desk := Started(id))];
    }

    method SaveRemote(t: Ticket, now: Time)
      requires t in jobs && t.run < |session.runs| && jobs[t].desk.Started?
      modifies `jobs, session
      ensures Apart(t)
      ensures View() == Act(session.cfg, old(View()), Save(t), now)
      ensures session.runs[t.run].workerRunId == Some(old(jobs[t].desk.remote)) && SameReport(t) && SameStage(t)
    {
      var id := jobs[t].desk.remote;
      session.SaveRun(t.run, session.runs[t.run].(workerRunId := Some(id)));
      jobs := jobs[t := jobs[t].(desk := Opened(Some(id)))];
    }

    /** `LeaseKeeper.renew`: false when the lease is lost. */
    method Renew(run: Id, duration: Time, now: Time) returns (kept: bool)
      modifies session
      ensures session.Snapshot() == Heartbeat(old(session.Snapshot()), run, owner, duration, now).db
      ensures kept <==> Heartbeat(old(session.Snapshot()), run, owner, duration, now).out.Ok?
      ensures !kept ==> session.Snapshot() == old(session.Snapshot())
    {
      var out := session.HeartbeatRunLease(run, owner, duration, now);
      kept := out.Ok?;
    }

    method RecordError(t: Ticket, retryable: bool, code: string, message: string, now: Time)
      requires t in jobs && t.run < |session.runs|
      modifies `jobs, session
      ensures Apart(t)
      ensures View() == Act(session.cfg, old(View()), Fail(t, retryable, code, message), now)
    {
      var row := session.runs[t.run];
      var handoff := row.details.handoff;
      row := row.(details := Details(message, None, None, handoff));
      session.SaveRun(t.run, row);
      jobs := jobs[t := jobs[t].(desk := Judged(row.dispatchAttempts, retryable, code, message))];
    }

    method GiveBackLease(t: Ticket, next: Time, now: Time) returns (out: Outcome)
      modifies `jobs, `released, session
      ensures Apart(t)
      ensures View() == GiveBack(old(View()), t, owner, next, now)
      ensures out == Release(old(session.Snapshot()), t.run, owner, next, now).out
    {
      out := session.ReleaseRunLease(t.run, owner, next, now);
      jobs := jobs - {t};
      if out.Ok? {
        released := released + {t};
      }
    }

    method GiveUpRun(t: Ticket, cat: Catalog, code: string, message: string, now: Time) returns (out: Outcome)
      modifies `jobs, session
      ensures Apart(t)
      ensures View() == GiveUp(session.cfg, old(View()), t, cat, owner, code, message, now)
      ensures out == TransitionRun(session.cfg, cat, old(session.Snapshot()), t.run, Failed, owner, Some(code),
                       Some(message), now).out
    {
      hide TransitionRun;
      ghost var before := session.Snapshot();
      out := session.TransitionRun(cat, t.run, Failed, owner, Some(code), Some(message), now);
      MoveSetsStatus(session.cfg, cat, before, t.run, Failed, owner, Some(code), Some(message), now,
        Step(session.Snapshot(), out));
      jobs := jobs - {t};
    }

    /** Retry or fail the run; if that is refused, the refusal escapes. */
    method ConcludeError(t: Ticket, cat: Catalog, next: Time, now: Time) returns (result: Result)
      requires t in jobs && t.run < |session.runs| && jobs[t].desk.Judged? && jobs[t].owner == owner
      modifies `jobs, `released, session
      ensures Apart(t)
      ensures View() == Act(session.cfg, old(View()), Decide(t, cat, next), now)
      ensures result == Handled(Refusal(session.cfg, old(View()), t, cat, next, now))
    {
      var desk := jobs[t].desk;
      var out := Ok(t.run, false);
      if Retries(session.cfg, desk) {
        out := GiveBackLease(t, next, now);
      } else if session.runs[t.run].status in {Dispatching, Running} {
        out := GiveUpRun(t, cat, desk.code, desk.message, now);
      } else {
        jobs := jobs - {t};
      }
      result := if out.Refused? then Escaped(out.code) else Troubled;
    }

    // ---- One run from claim to conclusion: `clock` gives the time of each of its transactions --------

    predicate Attending(t: Ticket)
      reads this, session
    {
      t in jobs && t.run < |session.runs| && jobs[t].owner == owner
    }

    /** Nothing but job `t` was worked on, and no run was added or removed. */
    twostate predicate Apart(t: Ticket)
      reads this, session
    {
      jobs - {t} == old(jobs) - {t} && |session.runs| == old(|session.runs|)
    }

    /** What the outcome rests on is as it was: the ledger, and what the run's row says of its hand-over. */
    twostate predicate SameReport(t: Ticket)
      reads session
    {
      && session.ledger == old(session.ledger) && |session.runs| == old(|session.runs|)
      && (t.run < |session.runs| ==>
            && session.runs[t.run].details == old(session.runs[t.run].details)
            && session.runs[t.run].key == old(session.runs[t.run].key))
    }

    /** And where the run has got to. */
    twostate predicate SameStage(t: Ticket)
      reads session
    {
      old(UnderWay(session.Snapshot(), t.run)) ==> UnderWay(session.Snapshot(), t.run)
    }

    /** And so is the remote run that the row names. */
    twostate predicate SameRemote(t: Ticket)
      reads session
    {
      && |session.runs| == old(|session.runs|)
      && (t.run < |session.runs| ==> session.runs[t.run].workerRunId == old(session.runs[t.run].workerRunId))
    }

    method Beat(t: Ticket, duration: Time, now: Time, ghost reach: (Site, Site) -> bool) returns (kept: bool)
      requires Closed(session.cfg, reach) && Attending(t)
      modifies session, `renewals
      ensures |session.runs| == old(|session.runs|)
      ensures reach(old(View()), View()) && Attending(t)
      ensures renewals == old(renewals) + [(now, kept)] && SameReport(t) && SameRemote(t) && SameStage(t)
      ensures kept <==> Heartbeat(old(session.Snapshot()), t.run, owner, duration, now).out.Ok?
      ensures session.runs[t.run].status == old(session.runs[t.run].status)
    {
      ghost var before := View();
      kept := Renew(t.run, duration, now);
      renewals := renewals + [(now, kept)];
      assert View() == Act(session.cfg, before, Serve(Command.Beat(t.run, owner, duration)), now);
    }

    method MoveTo(
      t: Ticket, to: Status, code: Option<string>, summary: Option<string>, cat: Catalog, now: Time,
      ghost reach: (Site, Site) -> bool)
      returns (out: Outcome)
      requires Closed(session.cfg, reach) && Attending(t)
      modifies session
      ensures |session.runs| == old(|session.runs|)
      ensures reach(old(View()), View()) && Attending(t)
      ensures out.Ok? ==> session.runs[t.run].status == to
      ensures Step(session.Snapshot(), out) ==
              TransitionRun(session.cfg, cat, old(session.Snapshot()), t.run, to, owner, code, summary, now)
    {
      ghost var before := View();
      out := session.TransitionRun(cat, t.run, to, owner, code, summary, now);
      MoveSetsStatus(session.cfg, cat, before.db, t.run, to, owner, code, summary, now, Step(session.Snapshot(), out));
      assert View() == Act(session.cfg, before, Serve(Move(cat, t.run, to, owner, code, summary)), now);
    }

    method Report(t: Ticket, state: State, now: Time, ghost reach: (Site, Site) -> bool)
      requires Closed(session.cfg, reach) && Attending(t)
      modifies session
      ensures |session.runs| == old(|session.runs|)
      ensures reach(old(View()), View()) && Attending(t)
      ensures session.Snapshot() == PutRun(old(session.Snapshot()), t.run, session.runs[t.run])
      ensures Reported(old(session.runs[t.run]), session.runs[t.run], state)
    {
      ghost var before := View();
      var row := session.runs[t.run];
      row := row.(usage := state.usage);
      row := row.(details := state.details.(handoff := row.details.handoff));
      row := row.(effectiveProfile := state.profile);
      session.SaveRun(t.run, row);
      ghost var report := Lifecycle.Report(row.workerRunId, state.usage, state.details, state.profile);
      assert View() == Act(session.cfg, before, Serve(Note(t.run, report)), now);
    }

    method Leave(t: Ticket, ghost reach: (Site, Site) -> bool)
      requires Closed(session.cfg, reach) && Attending(t)
      modifies `jobs
      ensures Apart(t)
      ensures reach(old(View()), View()) && t !in jobs
    {
      ghost var before := View();
      jobs := jobs - {t};
      assert View() == Act(session.cfg, before, Action.Leave(t), 0);
    }

    /** `_handle_error`: record the error, then retry or give up. */
    method HandleError(
      t: Ticket, trouble: Trouble, cat: Catalog, next: Time, now: Time, later: Time, ghost reach: (Site, Site) -> bool)
      returns (result: Result)
      requires Closed(session.cfg, reach) && Attending(t)
      modifies `jobs, `released, session
      ensures Apart(t)
      ensures var fail := Fail(t, trouble.retryable, trouble.code, trouble.message);
              View() == Act(session.cfg, Act(session.cfg, old(View()), fail, now), Decide(t, cat, next), later)
      ensures reach(old(View()), View()) && t !in jobs
      ensures result == Handled(Judgement(session.cfg, old(View()), t, trouble, cat, next, now, later))
    {
      hide Refusal, Release, TransitionRun;
      ghost var before := View();
      RecordError(t, trouble.retryable, trouble.code, trouble.message, now);
      ghost var between := View();
      assert reach(before, between);
      result := ConcludeError(t, cat, next, later);
    }

    /** Save the worker's answer if the lease still holds. */
    method KeepRemote(t: Ticket, duration: Time, clock: nat -> Time, ghost reach: (Site, Site) -> bool)
      returns (stop: Option<Result>)
      requires Closed(session.cfg, reach) && Attending(t) && jobs[t].desk.Started?
      modifies `jobs, `renewals, session
      ensures Apart(t) && reach(old(View()), View())
      ensures if stop.None? then Attending(t) else t !in jobs && stop == Some(LeaseLost)
      ensures renewals == old(renewals) + [(clock(3), stop.None?)]
      ensures stop.None? ==>
                SameReport(t) && SameStage(t) && session.runs[t.run].workerRunId == Some(old(jobs[t].desk.remote))
    {
      var kept := Beat(t, duration, clock(3), reach);
      if !kept {
        Leave(t, reach);
        return Some(LeaseLost);
      }
      SaveRemote(t, clock(4));
      stop := None;
    }

    /** Submit a run that names no remote run, and save the answer if it arrives and the lease still holds. */
    method Launch(
      t: Ticket, submission: Submission, cat: Catalog, duration: Time, next: Time, clock: nat -> Time,
      ghost reach: (Site, Site) -> bool)
      returns (stop: Option<Result>)
      requires Closed(session.cfg, reach) && Attending(t) && jobs[t].desk == Opened(None)
      modifies `jobs, `released, `renewals, session, worker
      ensures Apart(t) && reach(old(View()), View())
      ensures if stop.None? then Attending(t) else t !in jobs && Stops(stop.value)
      ensures Renews(old(renewals), renewals, [clock(3)], stop == Some(LeaseLost), stop.None?)
      ensures stop.None? ==>
                && submission.Taken? && SameReport(t) && SameStage(t) && session.runs[t.run].workerRunId.Some?
                && Begun(worker.remotes, session.runs[t.run].workerRunId.value)
                   == StartRun(old(worker.remotes), Some(old(session.runs[t.run].key)), submission.candidate)
      ensures submission.Taken? ==> stop.None? || stop == Some(LeaseLost)
    {
      hide Judgement, Apply, Conclude, RecordFailure, PollRuns, Renews;
      RenewsNone(renewals, [clock(3)]);
      if submission.NotTaken? {
        var result := HandleError(t, submission.trouble, cat, next, clock(20), clock(21), reach);
        return Some(result);
      }
      var id := StartRemote(t, submission.candidate, clock(2));
      if submission.AnswerLost? {
        var result := HandleError(t, submission.trouble, cat, next, clock(20), clock(21), reach);
        return Some(result);
      }
      stop := KeepRemote(t, duration, clock, reach);
      RenewsOnce(old(renewals), clock(3), stop.None?);
    }

    /** A dispatching run enters running; a refusal escapes. */
    method Enter(t: Ticket, cat: Catalog, now: Time, ghost reach: (Site, Site) -> bool) returns (stop: Option<Result>)
      requires Closed(session.cfg, reach) && Attending(t) && session.runs[t.run].status == Dispatching
      modifies `jobs, session
      ensures Apart(t) && reach(old(View()), View())
      ensures if stop.None? then Attending(t) && jobs == old(jobs) else t !in jobs && stop.value.Escaped?
      ensures stop.None? ==> session.runs[t.run].status == Running && SameReport(t) && SameRemote(t) && SameStage(t)
      ensures old(UnderWay(session.Snapshot(), t.run)) ==> stop.None?
    {
      hide Act, Orderly, TransitionRun, Unbooked, UnderWay;
      ghost var first := session.Snapshot();
      var out := MoveTo(t, Running, None, None, cat, now, reach);
      ghost var step := Step(session.Snapshot(), out);
      if UnderWay(first, t.run) {
        UnderWayMoves(session.cfg, cat, first, t.run, Running, owner, None, None, now, step);
      }
      if out.Refused? {
        Leave(t, reach);
        return Some(Escaped(out.code));
      }
      OkMoves(session.cfg, cat, first, t.run, Running, owner, None, None, now, step);
      stop := None;
    }

    /** What the worker reported is stored, then the run is ended. */
    method Settle(
      t: Ticket, local: Status, state: State, cat: Catalog, clock: nat -> Time, ghost reach: (Site, Site) -> bool)
      returns (result: Result)
      requires Closed(session.cfg, reach) && Attending(t) && LocalStatus(state.status) == Some(local)
      modifies `jobs, session
      ensures Apart(t) && reach(old(View()), View()) && t !in jobs && (result == Ended(local) || result.Escaped?)
      ensures result.Ended? ==>
                Delivered(session.Snapshot(), t.run, state, old(session.runs[t.run].details.handoff))
      ensures result.Ended? && old(Unbooked(session.Snapshot(), t.run)) ==>
                BookedOnce(session.cfg.project, session.Snapshot(), t.run)
      ensures old(UnderWay(session.Snapshot(), t.run)) && MayMove(old(session.runs[t.run].status), local) ==>
                result.Ended?
    {
      hide Act, Orderly, TransitionRun, Delivered, BookedOnce, Unbooked, UnderWay;
      ghost var was := session.runs[t.run];
      ghost var unreported := session.Snapshot();
      Report(t, state, clock(11), reach);
      ghost var reported := session.Snapshot();
      LedgerUnbooked(unreported, reported, t.run);
      var out := MoveTo(t, local, state.code, state.summary, cat, clock(12), reach);
      ghost var ended := Step(session.Snapshot(), out);
      if UnderWay(unreported, t.run) && MayMove(was.status, local) {
        UnderWayStays(unreported, reported, t.run);
        UnderWayMoves(session.cfg, cat, reported, t.run, local, owner, state.code, state.summary, clock(12), ended);
      }
      if out.Ok? {
        DeliveryIsBooked(session.cfg, cat, was, reported, t.run, state, owner, clock(12), ended);
      }
      Leave(t, reach);
      result := if out.Ok? then Ended(local) else Escaped(out.code);
    }

    /** `finalize_run_from_worker_state`. */
    method Finalize(
      t: Ticket, state: State, cat: Catalog, next: Time, clock: nat -> Time, ghost reach: (Site, Site) -> bool)
      returns (result: Result)
      requires Closed(session.cfg, reach) && Attending(t)
      modifies `jobs, `released, session
      ensures Apart(t) && reach(old(View()), View()) && t !in jobs && result != LeaseLost
      ensures result.Ended? ==>
                Delivered(session.Snapshot(), t.run, state, old(session.runs[t.run].details.handoff))
      ensures result.Ended? ==>
                && Some(result.status) == LocalStatus(state.status)
                && t.run < |session.runs| && session.runs[t.run].status == result.status
                && session.runs[t.run].task < |session.tasks|
      ensures result.Ended? && old(Unbooked(session.Snapshot(), t.run)) ==>
                BookedOnce(session.cfg.project, session.Snapshot(), t.run)
      ensures Final(state) && old(UnderWay(session.Snapshot(), t.run)) ==> result.Ended?
    {
      hide Act, Orderly, Judgement, Delivered, BookedOnce, Unbooked;
      ghost var first := session.Snapshot();
      var local := LocalStatus(state.status);
      if local.None? {
        var trouble := Trouble(true, "invalid_worker_response", state.status);
        result := HandleError(t, trouble, cat, next, clock(20), clock(21), reach);
        return;
      }
      if session.runs[t.run].status == Dispatching && local == Some(Completed) {
        var stop := Enter(t, cat, clock(10), reach);
        if stop.Some? {
          return stop.value;
        }
        LedgerUnbooked(first, session.Snapshot(), t.run);
      }
      if state.unverified.Some? {
        result := HandleError(t, state.unverified.value, cat, next, clock(20), clock(21), reach);
        return;
      }
      result := Settle(t, local.value, state, cat, clock, reach);
      DeliveredMeans(session.Snapshot(), t.run, state, old(session.runs[t.run].details.handoff));
    }

    /** Renew, and leave the job if the lease is lost. */
    method Hold(t: Ticket, duration: Time, now: Time, ghost reach: (Site, Site) -> bool) returns (stop: Option<Result>)
      requires Closed(session.cfg, reach) && Attending(t)
      modifies `jobs, `renewals, session
      ensures Apart(t) && reach(old(View()), View())
      ensures if stop.None? then Attending(t) && jobs == old(jobs) else t !in jobs && stop == Some(LeaseLost)
      ensures Renews(old(renewals), renewals, [now], stop.Some?, stop.None?)
      ensures SameReport(t) && SameRemote(t) && SameStage(t)
    {
      hide Renews;
      var kept := Beat(t, duration, now, reach);
      RenewsOnce(old(renewals), now, kept);
      if !kept {
        Leave(t, reach);
        return Some(LeaseLost);
      }
      stop := None;
    }

    /** An answer is handled as an error, or the lease is renewed after it. */
    method Heed(
      t: Ticket, trouble: Option<Trouble>, cat: Catalog, duration: Time, next: Time, now: Time, clock: nat -> Time,
      ghost reach: (Site, Site) -> bool)
      returns (stop: Option<Result>)
      requires Closed(session.cfg, reach) && Attending(t)
      modifies `jobs, `released, `renewals, session
      ensures Apart(t) && reach(old(View()), View())
      ensures if stop.None? then Attending(t) && jobs == old(jobs) else t !in jobs && Stops(stop.value)
      ensures Renews(old(renewals), renewals, [now], stop == Some(LeaseLost), stop.None?)
      ensures stop.None? ==> trouble.None? && SameReport(t) && SameRemote(t) && SameStage(t)
      ensures trouble.None? ==> stop.None? || stop == Some(LeaseLost)
    {
      hide Renews, Act, Orderly, Judgement;
      if trouble.Some? {
        RenewsNone(renewals, [now]);
        var result := HandleError(t, trouble.value, cat, next, clock(20), clock(21), reach);
        return Some(result);
      }
      stop := Hold(t, duration, now, reach);
    }

    /** Wait for the end of the stream and the state after it, renewing the lease before, between and after. */
    method Await(
      t: Ticket, stream: Option<Trouble>, last: Reply, cat: Catalog, duration: Time, next: Time, clock: nat -> Time,
      ghost reach: (Site, Site) -> bool)
      returns (stop: Option<Result>)
      requires Closed(session.cfg, reach) && Attending(t)
      modifies `jobs, `released, `renewals, session
      ensures Apart(t) && reach(old(View()), View())
      ensures if stop.None? then Attending(t) && last.Answer? && stream.None? else t !in jobs && Stops(stop.value)
      ensures Renews(old(renewals), renewals, [clock(6), clock(7), clock(8)], stop == Some(LeaseLost), stop.None?)
      ensures stop.None? ==> SameReport(t) && SameRemote(t) && SameStage(t)
      ensures stream.None? && last.Answer? ==> stop.None? || stop == Some(LeaseLost)
    {
      hide Renews;
      stop := Hold(t, duration, clock(6), reach);
      ghost var first := renewals;
      assert [clock(6)] + [clock(7), clock(8)] == [clock(6), clock(7), clock(8)];
      assert [clock(6)] + [clock(7)] == [clock(6), clock(7)];
      assert [clock(6), clock(7)] + [clock(8)] == [clock(6), clock(7), clock(8)];
      if stop.Some? {
        RenewsLess(old(renewals), first, [clock(6)], [clock(7), clock(8)], true, false);
        return;
      }
      stop := Heed(t, stream, cat, duration, next, clock(7), clock, reach);
      ghost var second := renewals;
      RenewsOn(old(renewals), first, second, [clock(6)], [clock(7)], stop == Some(LeaseLost), stop.None?);
      if stop.Some? {
        RenewsLess(old(renewals), second, [clock(6), clock(7)], [clock(8)], stop == Some(LeaseLost), false);
        return;
      }
      var trouble := if last.Failure? then Some(last.trouble) else None;
      stop := Heed(t, trouble, cat, duration, next, clock(8), clock, reach);
      RenewsOn(old(renewals), second, renewals, [clock(6), clock(7)], [clock(8)], stop == Some(LeaseLost), stop.None?);
    }

    /** From the known remote run to its conclusion. */
    method Follow(
      t: Ticket, stream: Option<Trouble>, last: Reply, cat: Catalog, duration: Time, next: Time, clock: nat -> Time,
      ghost reach: (Site, Site) -> bool)
      returns (result: Result)
      requires Closed(session.cfg, reach) && Attending(t)
      modifies `jobs, `released, `renewals, session
      ensures Apart(t) && reach(old(View()), View()) && t !in jobs
      ensures Renews(old(renewals), renewals, [clock(6), clock(7), clock(8)], result.LeaseLost?, result.Ended?)
      ensures result.Ended? ==>
                && last.Answer? && t.run < |session.runs| && session.runs[t.run].status == result.status
                && session.runs[t.run].task < |session.tasks|
      ensures result.Ended? ==>
                Delivered(session.Snapshot(), t.run, last.state, old(session.runs[t.run].details.handoff))
      ensures result.Ended? && old(Unbooked(session.Snapshot(), t.run)) ==>
                BookedOnce(session.cfg.project, session.Snapshot(), t.run)
      ensures stream.None? && last.Answer? && Final(last.state) && old(UnderWay(session.Snapshot(), t.run)) ==>
                result.Ended? || result == LeaseLost
    {
      hide Act, Orderly, Judgement, TransitionRun, Delivered, BookedOnce, Unbooked, Renews, UnderWay;
      ghost var first := session.Snapshot();
      RenewsNone(renewals, [clock(6), clock(7), clock(8)]);
      if session.runs[t.run].status == Dispatching {
        var stop := Enter(t, cat, clock(5), reach);
        if stop.Some? {
          return stop.value;
        }
      }
      var stop := Await(t, stream, last, cat, duration, next, clock, reach);
      if stop.Some? {
        return stop.value;
      }
      LedgerUnbooked(first, session.Snapshot(), t.run);
      ghost var waited := renewals;
      result := Finalize(t, last.state, cat, next, clock, reach);
      RenewsSome(old(renewals), waited, [clock(6), clock(7), clock(8)], false, result.Ended?);
    }

    /** The remote run is known: it was submitted and saved, or the worker has told its state. */
    method Attach(
      t: Ticket, known: Option<string>, world: World, cat: Catalog, duration: Time, next: Time, clock: nat -> Time,
      ghost reach: (Site, Site) -> bool)
      returns (stop: Option<Result>)
      requires Closed(session.cfg, reach) && Attending(t) && jobs[t].desk == Opened(known)
      modifies `jobs, `released, `renewals, session, worker
      ensures Apart(t) && reach(old(View()), View())
      ensures if stop.None? then Attending(t) else t !in jobs && Stops(stop.value)
      ensures known.Some? ==> worker.remotes == old(worker.remotes)
      ensures Renews(old(renewals), renewals, [clock(1), if known.None? then clock(3) else clock(2)],
                     stop == Some(LeaseLost), stop.None?)
      ensures stop.None? ==> SameReport(t) && SameStage(t) && (known.Some? ==> world.known.Answer? && SameRemote(t))
      ensures Attached(known.Some?, world) ==> stop.None? || stop == Some(LeaseLost)
      ensures stop.None? && known.None? ==>
                && world.submission.Taken? && session.runs[t.run].workerRunId.Some?
                && Begun(worker.remotes, session.runs[t.run].workerRunId.value)
                   == StartRun(old(worker.remotes), Some(old(session.runs[t.run].key)), world.submission.candidate)
    {
      hide Renews, Act, Orderly;
      stop := Hold(t, duration, clock(1), reach);
      ghost var first := renewals;
      ghost var second := if known.None? then clock(3) else clock(2);
      assert [clock(1)] + [second] == [clock(1), second];
      if stop.Some? {
        RenewsLess(old(renewals), first, [clock(1)], [second], true, false);
        return;
      }
      if known.None? {
        stop := Launch(t, world.submission, cat, duration, next, clock, reach);
      } else {
        var trouble := if world.known.Failure? then Some(world.known.trouble) else None;
        stop := Heed(t, trouble, cat, duration, next, clock(2), clock, reach);
      }
      RenewsOn(old(renewals), first, renewals, [clock(1)], [second], stop == Some(LeaseLost), stop.None?);
    }

    /** From the attached remote run to the result. */
    method Complete(
      t: Ticket, known: bool, world: World, cat: Catalog, duration: Time, next: Time, clock: nat -> Time,
      ghost reach: (Site, Site) -> bool)
      returns (result: Result)
      requires Closed(session.cfg, reach) && Attending(t) && (known ==> world.known.Answer?)
      modifies `jobs, `released, `renewals, session
      ensures Apart(t) && reach(old(View()), View()) && t !in jobs
      ensures Renews(old(renewals), renewals, LateTicks(known, EndedBefore(world), clock), result.LeaseLost?,
                     result.Ended?)
      ensures result.Ended? ==>
                && t.run < |session.runs| && session.runs[t.run].status == result.status
                && session.runs[t.run].task < |session.tasks| && FinalReply(known, world).Answer?
      ensures result.Ended? ==>
                Delivered(session.Snapshot(), t.run, FinalReply(known, world).state,
                          old(session.runs[t.run].details.handoff))
      ensures result.Ended? && old(Unbooked(session.Snapshot(), t.run)) ==>
                BookedOnce(session.cfg.project, session.Snapshot(), t.run)
      ensures Concludes(known, world) && old(UnderWay(session.Snapshot(), t.run)) ==>
                result.Ended? || result == LeaseLost
    {
      hide Delivered, BookedOnce, Unbooked, Renews, Act, Orderly, UnderWay;
      if known && EndedBefore(world) {
        RenewsNone(renewals, []);
        result := Finalize(t, world.known.state, cat, next, clock, reach);
        RenewsSome(renewals, renewals, [], false, result.Ended?);
      } else {
        result := Follow(t, world.stream, world.last, cat, duration, next, clock, reach);
      }
    }

    /**
      `_process`: everything one dispatcher does about one claimed run. Whatever the outside answers,
      it is a succession of orderly actions, and a run that names a remote run is not submitted again.
      Each answer of the worker is followed by a renewal of the lease, and a run whose end is reported
      has been renewed throughout, tells what the worker reported last, and is booked accordingly.
     */
    method Process(
      t: Ticket, world: World, cat: Catalog, duration: Time, next: Time, clock: nat -> Time,
      ghost reach: (Site, Site) -> bool)
      returns (result: Result)
      requires Closed(session.cfg, reach) && Attending(t) && jobs[t].desk.Waiting?
      modifies this, session, worker
      ensures Apart(t)
      ensures reach(old(View()), View()) && t !in jobs
      ensures old(session.runs[t.run].workerRunId).Some? ==> worker.remotes == old(worker.remotes)
      ensures Renews(old(renewals), renewals,
                     Ticks(old(session.runs[t.run].workerRunId).Some?, EndedBefore(world), clock),
                     result.LeaseLost?, result.Ended?)
      ensures result.Ended? ==>
                && t.run < |session.runs| && session.runs[t.run].status == result.status
                && session.runs[t.run].task < |session.tasks|
                && FinalReply(old(session.runs[t.run].workerRunId).Some?, world).Answer?
      ensures result.Ended? ==>
                Delivered(session.Snapshot(), t.run,
                          FinalReply(old(session.runs[t.run].workerRunId).Some?, world).state,
                          old(session.runs[t.run].details.handoff))
      ensures result.Ended? && old(Unbooked(session.Snapshot(), t.run)) ==>
                BookedOnce(session.cfg.project, session.Snapshot(), t.run)
      ensures Smooth(old(session.runs[t.run].workerRunId).Some?, world) ==>
                old(UnderWay(session.Snapshot(), t.run)) ==> result.Ended? || result == LeaseLost
    {
      hide Judgement, Apply, Conclude, RecordFailure, PollRuns, Delivered, BookedOnce, Unbooked, Renews, UnderWay;
      ghost var first := session.Snapshot();
      ghost var ticks := Ticks(session.runs[t.run].workerRunId.Some?, EndedBefore(world), clock);
      RenewsNone(renewals, ticks);
      if world.target.Some? {
        result := HandleError(t, world.target.value, cat, next, clock(20), clock(21), reach);
        return;
      }
      ghost var start := View();
      var known := OpenRun(t, clock(0));
      assert reach(start, View());
      hide Act, Orderly;
      if world.discovery.Some? {
        result := HandleError(t, world.discovery.value, cat, next, clock(20), clock(21), reach);
        return;
      }
      var stop := Attach(t, known, world, cat, duration, next, clock, reach);
      ghost var attached := renewals;
      ghost var early := [clock(1), if known.None? then clock(3) else clock(2)];
      if stop.Some? {
        RenewsLess(old(renewals), attached, early, LateTicks(known.Some?, EndedBefore(world), clock),
          stop == Some(LeaseLost), false);
        return stop.value;
      }
      LedgerUnbooked(first, session.Snapshot(), t.run);
      result := Complete(t, known.Some?, world, cat, duration, next, clock, reach);
      RenewsOn(old(renewals), attached, renewals, early, LateTicks(known.Some?, EndedBefore(world), clock),
        result.LeaseLost?, result.Ended?);
    }

    /** On shutdown a claimed run is given back untouched. */
    method ShutDownRun(t: Ticket, next: Time, now: Time, ghost reach: (Site, Site) -> bool) returns (result: Result)
      requires Closed(session.cfg, reach) && Attending(t)
      modifies `jobs, session
      ensures Apart(t) && reach(old(View()), View()) && t !in jobs
    {
      ghost var before := View();
      var out := session.ReleaseRunLease(t.run, owner, next, now);
      assert View() == Act(session.cfg, before, Serve(Drop(t.run, owner, next)), now);
      Leave(t, reach);
      result := if out.Ok? then ShutDown else Escaped(out.code);
    }

    method WorkOff(
      t: Ticket, stopped: bool, world: World, cat: Catalog, duration: Time, next: Time, clock: nat -> Time,
      ghost reach: (Site, Site) -> bool)
      returns (result: Result)
      requires Closed(session.cfg, reach) && Attending(t) && jobs[t].desk.Waiting?
      modifies this, session, worker
      ensures reach(old(View()), View()) && |session.runs| == old(|session.runs|)
      ensures forall u :: u != t && u in old(jobs) ==> u in jobs && jobs[u] == old(jobs[u])
    {
      if stopped {
        result := ShutDownRun(t, next, clock(0), reach);
      } else {
        result := Process(t, world, cat, duration, next, clock, reach);
      }
      forall u | u != t && u in old(jobs) ensures u in jobs && jobs[u] == old(jobs[u]) {
        assert u in old(jobs) - {t} && u in jobs - {t};
      }
    }

    /** The jobs a claim opens, in its order. */
    method ClaimBatch(
      duration: Time, limit: int, locked: set<Id>, now: Time, ghost reach: (Site, Site) -> bool)
      returns (tickets: seq<Ticket>)
      requires Closed(session.cfg, reach)
      modifies `jobs, session
      ensures reach(old(View()), View())
      ensures Lists(tickets, ClaimedIds(old(session.runs), owner, duration, limit, locked, now))
      ensures forall k :: 0 <= k < |tickets| ==> Attending(tickets[k]) && jobs[tickets[k]].desk.Waiting?
    {
      ghost var before := View();
      ClaimedInRange(session.runs, owner, duration, limit, locked, now);
      var claimed := Poll(duration, limit, locked, now);
      assert reach(before, View());
      tickets := TicketList(session.runs, claimed);
    }

    /** Process the claimed runs one after another; once a stop is requested the rest are given back. */
    method RunBatch(
      tickets: seq<Ticket>, worlds: Ticket -> World, stopped: nat -> bool, cat: Catalog, duration: Time, next: Time,
      clock: nat -> nat -> Time, ghost runs: seq<Id>, ghost reach: (Site, Site) -> bool)
      returns (results: seq<(Id, Result)>)
      requires Closed(session.cfg, reach) && Lists(tickets, runs)
      requires forall k :: 0 <= k < |tickets| ==> Attending(tickets[k]) && jobs[tickets[k]].desk.Waiting?
      modifies this, session, worker
      ensures reach(old(View()), View()) && Completes(results, runs)
    {
      results := [];
      ghost var before := View();
      for k := 0 to |tickets|
        invariant reach(before, View()) && |results| == k
        invariant forall j :: 0 <= j < k ==> results[j].0 == runs[j]
        invariant forall j :: k <= j < |tickets| ==> Attending(tickets[j]) && jobs[tickets[j]].desk.Waiting?
      {
        var result := WorkOff(
          tickets[k], stopped(k + 1), worlds(tickets[k]), cat, duration, next, clock(k + 1), reach);
        results := results + [(tickets[k].run, result)];
        if result.Escaped? {
          return;
        }
      }
    }

    /** `run_once`: every run it claims gets a result, in the order of the claim, unless an error escapes. */
    method RunOnce(
      worlds: Ticket -> World, stopped: nat -> bool, cat: Catalog, duration: Time, limit: int, locked: set<Id>,
      next: Time, clock: nat -> nat -> Time, ghost reach: (Site, Site) -> bool)
      returns (results: seq<(Id, Result)>)
      requires Closed(session.cfg, reach)
      modifies this, session, worker
      ensures reach(old(View()), View())
      ensures Completes(results, if stopped(0) then []
                                 else ClaimedIds(old(session.runs), owner, duration, limit, locked, clock(0)(0)))
    {
      if stopped(0) {
        return [];
      }
      ghost var runs := ClaimedIds(session.runs, owner, duration, limit, locked, clock(0)(0));
      var tickets := ClaimBatch(duration, limit, locked, clock(0)(0), reach);
      results := RunBatch(tickets, worlds, stopped, cat, duration, next, clock, runs, reach);
    }

    /** So the theorems about histories hold through it: it extends one history by another. */
    method RunRound(
      worlds: Ticket -> World, stopped: nat -> bool, cat: Catalog, duration: Time, limit: int, locked: set<Id>,
      next: Time, clock: nat -> nat -> Time)
      returns (results: seq<(Id, Result)>)
      modifies this, session, worker
      ensures Reaches(session.cfg, old(View()), View())
    {
      ReachesIsClosed(session.cfg);
      results := RunOnce(
        worlds, stopped, cat, duration, limit, locked, next, clock, (a, b) => Reaches(session.cfg, a, b));
    }
  }
}
