/** What an error on a job leaves behind: what is recorded of it, and whether the run is tried again or failed. */
module Failures {
  import opened Tables
  import opened Records
  import opened Lifecycle
  import opened Invariants
  import opened Leases
  import opened Moves
  import opened Dispatching

  /** The error replaces the details of the run, but for its hand-over; no other column changes. */
  lemma FailuresAreRecorded(
    cfg: Settings, site: Site, t: Ticket, retryable: bool, code: string, message: string, now: Time, after: Site)
    requires t in site.jobs && t.run < |site.db.runs|
    requires after == Act(cfg, site, Fail(t, retryable, code, message), now)
    ensures var row := site.db.runs[t.run];
            && after.db == site.db.(runs := site.db.runs[t.run :=
                 row.(details := Details(message, None, None, row.details.handoff))])
            && after.worker == site.worker && after.released == site.released
            && after.jobs == site.jobs[t :=
                 Job(site.jobs[t].owner, Judged(row.dispatchAttempts, retryable, code, message))]
  {
  }

  /** The error may pass, and the run has not been claimed as often as it may be. */
  predicate TriesAgain(cfg: Settings, desk: Desk)
    requires desk.Judged?
  {
    desk.retryable && desk.attempts <= cfg.maxRetries
  }

  predicate UnderWay(run: Run) {
    run.status == Dispatching || run.status == Running
  }

  predicate Holds(run: Run, owner: string, now: Time) {
    run.lease.Some? && run.lease.value.owner == owner && now < run.lease.value.expires
  }

  /**
    A run that may be tried again is given back for the time given, if its job still holds it, and is otherwise
    left alone. One that may not is failed with the error, and booked, if it is still under way. The job is over.
   */
  lemma FailuresAreConcluded(cfg: Settings, site: Site, t: Ticket, cat: Catalog, next: Time, now: Time, after: Site)
    requires Manned(cfg, site) && t in site.jobs && t.run < |site.db.runs| && site.jobs[t].desk.Judged?
    requires after == Act(cfg, site, Decide(t, cat, next), now)
    ensures after.jobs == site.jobs - {t} && after.worker == site.worker
    ensures var job, row := site.jobs[t], site.db.runs[t.run];
            if TriesAgain(cfg, job.desk) then
              if UnderWay(row) && Holds(row, job.owner, now) then
                && after.db.runs == site.db.runs[t.run := row.(lease := None, nextAttemptAt := next)]
                && after.db == site.db.(runs := after.db.runs, audit := after.db.audit)
                && after.released == site.released + {t}
              else after.db == site.db && after.released == site.released
            else if UnderWay(row) then
              && row.task < |site.db.tasks|
              && MoveDone(cfg, site.db, after.db, t.run, Failed, Some(job.desk.code), Some(job.desk.message), now)
              && after.released == site.released
            else after.db == site.db && after.released == site.released
  {
    hide Inv, Crewed, Release, TransitionRun, MoveDone;
    var job := site.jobs[t];
    DropExactly(site.db, t.run, job.owner, next, now, Release(site.db, t.run, job.owner, next, now));
    MovesExactly(cfg, cat, site.db, t.run, Failed, job.owner, Some(job.desk.code), Some(job.desk.message), now,
      TransitionRun(cfg, cat, site.db, t.run, Failed, job.owner, Some(job.desk.code), Some(job.desk.message), now));
  }
}
