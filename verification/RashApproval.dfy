/** A run that is handed over twice has two reviews, and granting one of them completes the task without the other. */
module RashApproval {
  import opened Tables
  import opened Records
  import opened Controls
  import opened Lifecycle
  import opened Preservation
  import opened Histories
  import opened LateApproval
  import opened LapsedApproval
  import Moves
  import Reviews

  /** The worker hands the same run over twice, under two keys, before it completes; the reviewer grants one. */
  function TwoReviews(): seq<Event> {
    [At(Create("user:owner", Named("task"), REVIEWED), 0),
     At(Dispatch(NO_BUDGETS, 0, "user:owner", Named("dispatch"), OPEN), 0),
     At(Move(NO_BUDGETS, 0, Running, "dispatcher", None, None), 0),
     At(Deliver(0, "agent:developer", "handoff", RESULT, 1), 0),
     At(Deliver(0, "agent:developer", "again", RESULT, 1), 0),
     At(Move(NO_BUDGETS, 0, Completed, "dispatcher", None, None), 0)]
  }

  const GRANT: Event := At(Resolve(0, "user:reviewer", "grant", Approved, "reviewed"), 0)

  const FIRST: Approval := Approval(0, "completion", Undecided, "agent:developer", 1000, None, None, None)

  /** The state once the run was handed over twice. */
  ghost predicate Twice(db: Db) {
    && Alone(db.(comments := []), Running, AwaitingApproval)
    && db.runs[0].details.handoff.Some? && db.runs[0].details.handoff.value.handoff == RESULT
    && db.approvals == [FIRST, FIRST]
  }

  lemma IsHandedOverAgain(c: Db, d: Db, again: Db)
    requires Alone(c, Running, InProgress) && c.approvals == []
    requires d == HandoffTask(c, 0, "agent:developer", "handoff", RESULT, 1, 0).db
    requires again == HandoffTask(d, 0, "agent:developer", "again", RESULT, 1, 0).db
    ensures Twice(again)
  {
    IsHandedOver(c, d);
    assert d.comments == [Comment(0, "agent:developer", "handoff", StoredHandoff(RESULT, 0, 0))];
    assert Last(d.comments, CommentKeyed("again")).None?;
  }

  lemma IsEnded(again: Db, end: Db)
    requires Twice(again)
    requires end == TransitionRun(DEFAULTS, NO_BUDGETS, again, 0, Completed, "dispatcher", None, None, 0).db
    ensures |end.runs| == 1 && end.runs[0].task == 0 && end.runs[0].status == Completed
    ensures end.runs[0].worker == "agent:developer" && end.runs[0].details == again.runs[0].details
    ensures end.approvals == [FIRST, FIRST] && |end.tasks| == 1 && end.tasks[0].payload == REVIEWED
    ensures end.tasks[0].cancelKey.None?
  {
    hide RecordOutcome;
    RecordOutcomeFrame(
      DEFAULTS, NO_BUDGETS, Restated(again, 0, Completed, "dispatcher", None, None, 0), 0, "dispatcher", 0);
  }

  lemma Then(cfg: Settings, past: seq<Event>, e: Event)
    ensures Replay(cfg, past + [e]) == Apply(cfg, Replay(cfg, past), e.cmd, e.now).db
    ensures Guarded(cfg, past + [e]) <==> Guarded(cfg, past) && Safe(Replay(cfg, past), e)
  {
    assert (past + [e])[..|past|] == past;
  }

  lemma TwoReviewsEnd(end: Db)
    requires end == Replay(DEFAULTS, TwoReviews())
    ensures Guarded(DEFAULTS, TwoReviews())
    ensures |end.runs| == 1 && end.runs[0].task == 0 && end.runs[0].status == Completed
    ensures end.runs[0].worker == "agent:developer"
    ensures end.runs[0].details.handoff.Some? && end.runs[0].details.handoff.value.handoff == RESULT
    ensures end.approvals == [FIRST, FIRST] && |end.tasks| == 1 && end.tasks[0].payload == REVIEWED
    ensures end.tasks[0].cancelKey.None?
  {
    hide CreateTask, DispatchTask, TransitionRun, HandoffTask, Alone;
    var a := CreateTask(EMPTY, "user:owner", Named("task"), REVIEWED).db;
    var b := DispatchTask(DEFAULTS, NO_BUDGETS, a, 0, "user:owner", Named("dispatch"), OPEN, 0).db;
    var c := TransitionRun(DEFAULTS, NO_BUDGETS, b, 0, Running, "dispatcher", None, None, 0).db;
    var d := HandoffTask(c, 0, "agent:developer", "handoff", RESULT, 1, 0).db;
    var again := HandoffTask(d, 0, "agent:developer", "again", RESULT, 1, 0).db;
    ReplayFive(DEFAULTS, TwoReviews()[..5], a, b, c, d);
    Then(DEFAULTS, TwoReviews()[..5], TwoReviews()[5]);
    assert TwoReviews()[..5] + [TwoReviews()[5]] == TwoReviews();
    IsDispatched(a, b);
    IsStarted(b, c);
    IsHandedOverAgain(c, d, again);
    IsEnded(again, end);
  }

  /** The grant is one that the invariant allows, and rash: the other approval of the same hand-over waits. */
  lemma GrantIsRash(end: Db)
    requires end == Replay(DEFAULTS, TwoReviews())
    ensures Safe(end, GRANT) && Reviews.Rash(end, GRANT)
  {
    TwoReviewsEnd(end);
    assert Moves.PendingReview(end.approvals[0], 0);
    assert Reviews.WaitsOnCurrent(end, 0, 0);
    assert Reviews.AnotherWaits(end, 0, 1);
    assert Reviews.Grants(end, GRANT, 1);
    assert ApprovalOf(0)(end.approvals[1]);
  }

  /**
    So from the empty tables seven ordinary calls complete a reviewed task while an approval of its current run's
    hand-over is still pending.
   */
  lemma RashIsReachable(history: seq<Event>)
    requires history == TwoReviews() + [GRANT]
    ensures Guarded(DEFAULTS, history) && !Reviews.Prudent(DEFAULTS, history)
    ensures !Reviews.NeverSlips(DEFAULTS, history)
  {
    hide Apply, Reviews.Rash, Safe;
    TwoReviewsEnd(Replay(DEFAULTS, TwoReviews()));
    Then(DEFAULTS, TwoReviews(), GRANT);
    GrantIsRash(Replay(DEFAULTS, TwoReviews()));
    assert history[..|history| - 1] == TwoReviews();
    Reviews.ReviewsAreNotSkippedExactly(DEFAULTS, history);
  }
}
