/** A round of the coordinator is a succession of its transactions, so what holds of histories holds of it. */
module Rounds {
  import opened Tables
  import opened Records
  import opened Controls
  import opened Lifecycle
  import opened Invariants
  import opened Workflow
  import opened Ranking
  import opened Coordination
  import opened Termination
  import opened Coordinator
  import opened Passes

  /** Only the coordinator's own transactions. */
  predicate Unaided(history: seq<Entry>) {
    forall i :: 0 <= i < |history| ==> !history[i].commit.Outside? && !history[i].commit.Record?
  }

  /** The coordinator's transactions lead from one state to the other. */
  ghost predicate Worked(cfg: Settings, flow: Flow, after: Flow) {
    exists history: seq<Entry> ::
      Unaided(history) && Admissible(cfg, flow, history) && after == Unroll(cfg, flow, history)
  }

  lemma WorkedNothing(cfg: Settings, flow: Flow)
    ensures Worked(cfg, flow, flow)
  {
    hide Advance, Permitted;
    var none: seq<Entry> := [];
    assert Unaided(none) && Admissible(cfg, flow, none) && flow == Unroll(cfg, flow, none);
  }

  lemma WorkedOne(cfg: Settings, flow: Flow, commit: Commit, now: Time, after: Flow)
    requires !commit.Outside? && !commit.Record? && after == Advance(cfg, flow, commit, now)
    ensures Worked(cfg, flow, after)
  {
    hide Advance;
    var one := [Entry(commit, now)];
    UnrollOne(cfg, flow, one[0]);
    assert Unaided(one) && Admissible(cfg, flow, one) && after == Unroll(cfg, flow, one);
  }

  lemma WorkedOn(cfg: Settings, a: Flow, b: Flow, c: Flow)
    requires Worked(cfg, a, b) && Worked(cfg, b, c)
    ensures Worked(cfg, a, c)
  {
    hide Advance, Permitted, Admissible, Unroll;
    var past: seq<Entry> :| Unaided(past) && Admissible(cfg, a, past) && b == Unroll(cfg, a, past);
    var future: seq<Entry> :| Unaided(future) && Admissible(cfg, b, future) && c == Unroll(cfg, b, future);
    UnrollSplit(cfg, a, past, future);
    assert Unaided(past + future);
  }

  lemma WorkedWired(cfg: Settings, flow: Flow, after: Flow)
    requires Wired(cfg, flow) && Worked(cfg, flow, after)
    ensures Wired(cfg, after)
  {
    hide Wired, Advance, Permitted, Admissible, Unroll;
    var history: seq<Entry> :|
      Unaided(history) && Admissible(cfg, flow, history) && after == Unroll(cfg, flow, history);
    WorkIsBounded(cfg, flow, history);
  }

  // ---- Discovery ----------------------------------------------------------------------------------

  lemma TurnWorked(cfg: Settings, cat: Catalog, flow: Flow, e: Id, artifacts: seq<string>, now: Time, turn: Pass)
    requires turn == DiscoverOne(cfg, cat, flow, e, artifacts)
    ensures Worked(cfg, flow, turn.flow)
  {
    hide DirectiveFor, Seen, Worked, DiscoverEvent, Proposed;
    WorkedNothing(cfg, flow);
    if InBatch(cfg, flow, e) && !Seen(flow, e) && DirectiveFor(cfg, cat, flow.db, flow.events[e]).Propose? {
      var d := DirectiveFor(cfg, cat, flow.db, flow.events[e]).directive;
      var created := DiscoverEvent(cfg, cat, flow, e, artifacts);
      ProposedSteps(cfg, cat, flow, e, d, artifacts, created, turn.flow);
      WorkedOne(cfg, flow, Discover(e, cat, artifacts), now, created);
      if turn.flow != created {
        WorkedOne(cfg, created, Annotate(|flow.continuations|, d), now, turn.flow);
        WorkedOn(cfg, flow, created, turn.flow);
      }
    }
  }

  lemma DiscoveryWorked(
    cfg: Settings, cat: Catalog, flow: Flow, artifacts: Id -> seq<string>, now: Time, pass: Pass)
    requires pass == DiscoverPass(cfg, cat, flow, 0, artifacts)
    ensures Worked(cfg, flow, pass.flow)
  {
    hide Worked, DiscoverOne, DiscoverPass;
    WorkedNothing(cfg, flow);
    forall f: Flow, k: Id | Worked(cfg, flow, f)
      ensures Worked(cfg, flow, DiscoverOne(cfg, cat, f, k, artifacts(k)).flow)
    {
      var turn := DiscoverOne(cfg, cat, f, k, artifacts(k));
      TurnWorked(cfg, cat, f, k, artifacts(k), now, turn);
      WorkedOn(cfg, flow, f, turn.flow);
    }
    DiscoveryKeeps(cfg, cat, flow, 0, artifacts, pass, f => Worked(cfg, flow, f));
  }

  // ---- Processing ---------------------------------------------------------------------------------

  lemma SettledWorked(cfg: Settings, flow: Flow, c: Id, out: Outcome, now: Time, after: Flow)
    requires Live(flow, c) && after == Settled(flow, c, out)
    requires out.Ok? ==> Has(flow.db.runs, RunKeyed(WorkflowDispatch(c)))
    ensures Worked(cfg, flow, after)
  {
    hide Worked, Settle;
    match out
    case Ok(_, _) => WorkedOne(cfg, flow, Confirm(c), now, after);
    case Refused(code) => WorkedOne(cfg, flow, Abandon(c, code), now, after);
  }

  lemma RedispatchMoves(
    cfg: Settings, dir: Directory, cat: Catalog, flow: Flow, c: Id, d: Directive, actor: string, now: Time)
    requires Live(flow, c) && flow.continuations[c].directive == Some(d) && d.retrySource
    ensures Advance(cfg, flow, Redispatch(c, dir, cat, actor), now) ==
            flow.(db := RetrySource(cfg, dir, cat, flow, c, d, actor, now).db)
  {
    hide RetrySource;
  }

  lemma EnlistMoves(
    cfg: Settings, cat: Catalog, flow: Flow, c: Id, task: Id, d: Directive, actor: string, now: Time)
    requires Live(flow, c) && flow.continuations[c].directive == Some(d) && !d.retrySource
    requires Last(flow.db.tasks, TaskKeyed(WorkflowTask(c))) == Some(task)
    ensures Advance(cfg, flow, Enlist(c, cat, actor), now) ==
            flow.(db := EnlistSuccessor(cfg, cat, flow, c, task, d, actor, now).db)
  {
    hide EnlistSuccessor;
  }

  lemma RetryWorked(
    cfg: Settings, dir: Directory, cat: Catalog, flow: Flow, c: Id, d: Directive, actor: string, now: Time, after: Flow)
    requires Wired(cfg, flow) && Live(flow, c) && flow.continuations[c].directive == Some(d) && d.retrySource
    requires after == RetryPass(cfg, dir, cat, flow, c, d, actor, now)
    ensures Worked(cfg, flow, after)
  {
    hide Worked, Inv, Fits, RetrySource, Settled, Advance;
    var step := RetrySource(cfg, dir, cat, flow, c, d, actor, now);
    var moved := flow.(db := step.db);
    RedispatchStep(cfg, dir, cat, flow, c, d, actor, now, step, moved);
    RedispatchMoves(cfg, dir, cat, flow, c, d, actor, now);
    WorkedOne(cfg, flow, Redispatch(c, dir, cat, actor), now, moved);
    KeptLive(cfg, flow, moved, c);
    SettledWorked(cfg, moved, c, step.out, now, after);
    WorkedOn(cfg, flow, moved, after);
  }

  lemma KeptLive(cfg: Settings, flow: Flow, after: Flow, c: Id)
    requires Wired(cfg, after) && after == flow.(db := after.db) && Live(flow, c)
    ensures Live(after, c)
  {
    hide Inv;
    StillLive(flow, after, c);
  }

  lemma EnlistWorked(
    cfg: Settings, cat: Catalog, flow: Flow, c: Id, task: Id, d: Directive, actor: string, now: Time, step: Step,
    after: Flow)
    requires Wired(cfg, flow) && Live(flow, c) && flow.continuations[c].directive == Some(d) && !d.retrySource
    requires Last(flow.db.tasks, TaskKeyed(WorkflowTask(c))) == Some(task)
    requires step == EnlistSuccessor(cfg, cat, flow, c, task, d, actor, now)
    requires after == Settled(flow.(db := step.db), c, step.out)
    ensures Worked(cfg, flow, after)
  {
    hide Worked, Inv, Fits, EnlistSuccessor, Settled, Advance;
    var moved := flow.(db := step.db);
    EnlistStep(cfg, cat, flow, c, task, d, actor, now, step, moved);
    EnlistMoves(cfg, cat, flow, c, task, d, actor, now);
    WorkedOne(cfg, flow, Enlist(c, cat, actor), now, moved);
    KeptLive(cfg, flow, moved, c);
    SettledWorked(cfg, moved, c, step.out, now, after);
    WorkedOn(cfg, flow, moved, after);
  }

  lemma ResumeWorked(
    cfg: Settings, dir: Directory, cat: Catalog, flow: Flow, c: Id, d: Directive, actor: string, now: Time, after: Flow)
    requires Wired(cfg, flow) && Live(flow, c) && flow.continuations[c].directive == Some(d) && !d.retrySource
    requires after == ResumePass(cfg, dir, cat, flow, c, d, actor, now)
    ensures Worked(cfg, flow, after)
  {
    hide Worked, Inv, Fits, CreateSuccessor, EnlistSuccessor, Settled;
    var step := CreateSuccessor(cfg, dir, flow, c, d, actor);
    var created := flow.(db := step.db);
    SucceedStep(cfg, dir, flow, c, d, actor, step, created);
    WorkedOne(cfg, flow, Succeed(c, dir, actor), now, created);
    KeptLive(cfg, flow, created, c);
    match step.out {
      case Refused(_) => SettledWorked(cfg, created, c, step.out, now, after);
      case Ok(task, _) =>
        EnlistWorked(cfg, cat, created, c, task, d, actor, now,
          EnlistSuccessor(cfg, cat, created, c, task, d, actor, now), after);
    }
    WorkedOn(cfg, flow, created, after);
  }

  lemma PendingIsLive(cfg: Settings, flow: Flow, c: Id)
    requires Wired(cfg, flow) && c < |flow.continuations| && flow.continuations[c].status == Pending
    ensures Live(flow, c)
  {
    hide Inv;
    assert ContinuationFits(flow, c);
  }

  lemma ProcessWorked(
    cfg: Settings, dir: Directory, cat: Catalog, flow: Flow, c: Id, actor: string, now: Time, after: Flow)
    requires Wired(cfg, flow) && after == ProcessPass(cfg, dir, cat, flow, c, actor, now)
    ensures Worked(cfg, flow, after)
  {
    hide Worked, Wired, RetryPass, ResumePass, Settle;
    WorkedNothing(cfg, flow);
    if c < |flow.continuations| && flow.continuations[c].status == Pending {
      PendingIsLive(cfg, flow, c);
      match flow.continuations[c].directive
      case None => WorkedOne(cfg, flow, Abandon(c, "workflow_directive_missing"), now, after);
      case Some(d) =>
        if d.retrySource {
          RetryWorked(cfg, dir, cat, flow, c, d, actor, now, after);
        } else {
          ResumeWorked(cfg, dir, cat, flow, c, d, actor, now, after);
        }
    }
  }

  lemma {:induction false} BatchWorked(
    cfg: Settings, dir: Directory, cat: Catalog, flow: Flow, ids: seq<Id>, actor: string, now: Time, after: Flow)
    requires Wired(cfg, flow) && after == ProcessEach(cfg, dir, cat, flow, ids, actor, now)
    ensures Worked(cfg, flow, after)
  {
    hide Worked, Wired, ProcessPass;
    if ids == [] {
      WorkedNothing(cfg, flow);
    } else {
      var before := ProcessEach(cfg, dir, cat, flow, ids[..|ids| - 1], actor, now);
      BatchWorked(cfg, dir, cat, flow, ids[..|ids| - 1], actor, now, before);
      WorkedWired(cfg, flow, before);
      ProcessWorked(cfg, dir, cat, before, ids[|ids| - 1], actor, now, after);
      WorkedOn(cfg, flow, before, after);
    }
  }

  /** Whatever a round does, and however it ends, the coordinator's transactions account for it. */
  lemma RoundsAreHistories(
    cfg: Settings, dir: Directory, cat: Catalog, flow: Flow, artifacts: Id -> seq<string>, actor: string, now: Time,
    round: Pass)
    returns (history: seq<Entry>)
    requires Wired(cfg, flow) && round == Round(cfg, dir, cat, flow, artifacts, actor, now)
    ensures Unaided(history) && Admissible(cfg, flow, history) && round.flow == Unroll(cfg, flow, history)
  {
    hide Wired, DiscoverPass, ProcessEach, PendingIds, Advance, Permitted;
    var found := DiscoverPass(cfg, cat, flow, 0, artifacts);
    DiscoveryWorked(cfg, cat, flow, artifacts, now, found);
    if found.raised.None? {
      WorkedWired(cfg, flow, found.flow);
      BatchWorked(cfg, dir, cat, found.flow, PendingIds(found.flow.continuations, 0, cfg.workflowBatch), actor, now,
        round.flow);
      WorkedOn(cfg, flow, found.flow, round.flow);
    }
    history :| Unaided(history) && Admissible(cfg, flow, history) && round.flow == Unroll(cfg, flow, history);
  }

  // ---- Rounds among everything else ---------------------------------------------------------------

  /** A coordinator left alone: rounds, each in the state the one before left. */
  function Rounds(
    cfg: Settings, dir: Directory, cat: Catalog, flow: Flow, artifacts: Id -> seq<string>, actor: string,
    times: seq<Time>): Flow
  {
    if times == [] then flow
    else
      Round(cfg, dir, cat, Rounds(cfg, dir, cat, flow, artifacts, actor, times[..|times| - 1]), artifacts, actor,
            times[|times| - 1]).flow
  }

  lemma {:induction false} RoundsWorked(
    cfg: Settings, dir: Directory, cat: Catalog, flow: Flow, artifacts: Id -> seq<string>, actor: string,
    times: seq<Time>)
    requires Wired(cfg, flow)
    ensures Worked(cfg, flow, Rounds(cfg, dir, cat, flow, artifacts, actor, times))
  {
    hide Wired, Round, Worked, Advance, Permitted;
    if times == [] {
      WorkedNothing(cfg, flow);
    } else {
      var init, now := times[..|times| - 1], times[|times| - 1];
      var before := Rounds(cfg, dir, cat, flow, artifacts, actor, init);
      RoundsWorked(cfg, dir, cat, flow, artifacts, actor, init);
      WorkedWired(cfg, flow, before);
      RoundWorked(cfg, dir, cat, before, artifacts, actor, now);
      WorkedOn(cfg, flow, before, Rounds(cfg, dir, cat, flow, artifacts, actor, times));
    }
  }

  lemma RoundWorked(
    cfg: Settings, dir: Directory, cat: Catalog, flow: Flow, artifacts: Id -> seq<string>, actor: string, now: Time)
    requires Wired(cfg, flow)
    ensures Worked(cfg, flow, Round(cfg, dir, cat, flow, artifacts, actor, now).flow)
  {
    hide Wired, Round, Advance, Permitted, Admissible, Unroll;
    var history := RoundsAreHistories(cfg, dir, cat, flow, artifacts, actor, now,
      Round(cfg, dir, cat, flow, artifacts, actor, now));
  }

  lemma {:induction false} UnaidedIsLeftAlone(cfg: Settings, start: Flow, history: seq<Entry>)
    requires Unaided(history)
    ensures LeftAlone(cfg, start, history)
  {
    hide Advance;
    if history != [] {
      UnaidedIsLeftAlone(cfg, start, history[..|history| - 1]);
    }
  }

  /** So rounds alone keep the invariant and never add more rows than the rank they started from. */
  lemma RoundsTerminate(
    cfg: Settings, dir: Directory, cat: Catalog, flow: Flow, artifacts: Id -> seq<string>, actor: string,
    times: seq<Time>, end: Flow)
    requires Wired(cfg, flow) && end == Rounds(cfg, dir, cat, flow, artifacts, actor, times)
    ensures Wired(cfg, end) && Rows(end) <= Rows(flow) + Rank(cfg, flow)
  {
    hide Wired, Rounds, Round, Advance, Permitted, Rank, Rows;
    RoundsWorked(cfg, dir, cat, flow, artifacts, actor, times);
    WorkedWired(cfg, flow, end);
    var history: seq<Entry> :| Unaided(history) && Admissible(cfg, flow, history) && end == Unroll(cfg, flow, history);
    UnaidedIsLeftAlone(cfg, flow, history);
    LoopTerminates(cfg, flow, history);
  }

  // ---- What a round settles -----------------------------------------------------------------------

  /** The oldest pending continuations from the `n`-th on, in order, as many as the limit allows. */
  ghost predicate OldestPending(rows: seq<Continuation>, n: nat, limit: nat, ids: seq<Id>) {
    && |ids| <= limit
    && (forall k :: 0 <= k < |ids| ==> n <= ids[k] < |rows| && rows[ids[k]].status == Pending)
    && (forall j, k :: 0 <= j < k < |ids| ==> ids[j] < ids[k])
    && forall c: Id :: n <= c < |rows| && rows[c].status == Pending && c !in ids ==> LeftOver(limit, ids, c)
  }

  /** The batch was full of older ones. */
  ghost predicate LeftOver(limit: nat, ids: seq<Id>, c: Id) {
    |ids| == limit && forall k :: 0 <= k < |ids| ==> ids[k] < c
  }

  lemma {:induction false} BatchesExactly(rows: seq<Continuation>, n: nat, limit: nat, ids: seq<Id>)
    requires n <= |rows| && ids == PendingIds(rows, n, limit)
    ensures OldestPending(rows, n, limit, ids)
    decreases |rows| - n
  {
    if n < |rows| && limit > 0 {
      if rows[n].status == Pending {
        var rest := PendingIds(rows, n + 1, limit - 1);
        BatchesExactly(rows, n + 1, limit - 1, rest);
        assert ids == [n] + rest;
        forall c: Id | n <= c < |rows| && rows[c].status == Pending && c !in ids ensures LeftOver(limit, ids, c) {
          assert c != ids[0] && c !in rest;
          assert LeftOver(limit - 1, rest, c);
        }
      } else {
        BatchesExactly(rows, n + 1, limit, ids);
      }
    }
  }

  lemma PassKeepsOthers(
    cfg: Settings, dir: Directory, cat: Catalog, flow: Flow, c: Id, actor: string, now: Time, after: Flow)
    requires after == ProcessPass(cfg, dir, cat, flow, c, actor, now)
    ensures |after.continuations| == |flow.continuations|
    ensures forall k: Id :: k < |flow.continuations| && k != c ==> after.continuations[k] == flow.continuations[k]
    ensures c < |flow.continuations| && flow.continuations[c].status != Pending ==> after == flow
  {
    hide RetrySource, CreateSuccessor, EnlistSuccessor;
  }

  /** The continuations of the batch are settled, and no other is touched. */
  ghost predicate Settles(flow: Flow, after: Flow, ids: seq<Id>) {
    && |after.continuations| == |flow.continuations|
    && (forall c: Id :: c in ids && c < |flow.continuations| ==> after.continuations[c].status != Pending)
    && forall c: Id :: c < |flow.continuations| && c !in ids ==> after.continuations[c] == flow.continuations[c]
  }

  lemma {:induction false} BatchSettles(
    cfg: Settings, dir: Directory, cat: Catalog, flow: Flow, ids: seq<Id>, actor: string, now: Time, after: Flow)
    requires Wired(cfg, flow) && after == ProcessEach(cfg, dir, cat, flow, ids, actor, now)
    ensures Wired(cfg, after) && Settles(flow, after, ids)
  {
    hide Wired, ProcessPass, Settles;
    if ids == [] {
      NothingSettled(flow);
    } else {
      var init, c := ids[..|ids| - 1], ids[|ids| - 1];
      var before := ProcessEach(cfg, dir, cat, flow, init, actor, now);
      BatchSettles(cfg, dir, cat, flow, init, actor, now, before);
      OneSettles(cfg, dir, cat, before, c, actor, now, after);
      OneMoreSettled(flow, before, after, init, c);
      assert ids == init + [c];
    }
  }

  lemma NothingSettled(flow: Flow)
    ensures Settles(flow, flow, [])
  {
  }

  lemma OneSettles(
    cfg: Settings, dir: Directory, cat: Catalog, flow: Flow, c: Id, actor: string, now: Time, after: Flow)
    requires Wired(cfg, flow) && after == ProcessPass(cfg, dir, cat, flow, c, actor, now)
    ensures Wired(cfg, after) && Settles(flow, after, [c])
  {
    hide Wired, ProcessPass;
    PassKeepsOthers(cfg, dir, cat, flow, c, actor, now, after);
    if c < |flow.continuations| && flow.continuations[c].status == Pending {
      ProcessingSettles(cfg, dir, cat, flow, c, actor, now, after);
    } else {
      PassElsewhere(cfg, dir, cat, flow, c, actor, now);
    }
  }

  lemma OneMoreSettled(flow: Flow, before: Flow, after: Flow, init: seq<Id>, c: Id)
    requires Settles(flow, before, init) && Settles(before, after, [c])
    ensures Settles(flow, after, init + [c])
  {
  }

  lemma PassElsewhere(cfg: Settings, dir: Directory, cat: Catalog, flow: Flow, c: Id, actor: string, now: Time)
    requires c >= |flow.continuations| || flow.continuations[c].status != Pending
    ensures ProcessPass(cfg, dir, cat, flow, c, actor, now) == flow
  {
  }

  lemma FoundIsWired(cfg: Settings, cat: Catalog, flow: Flow, artifacts: Id -> seq<string>, found: Pass)
    requires Wired(cfg, flow) && found == DiscoverPass(cfg, cat, flow, 0, artifacts)
    ensures Wired(cfg, found.flow)
  {
    hide Wired, DiscoverPass;
    DiscoveryKeepsWired(cfg, cat, flow, 0, artifacts, found);
  }

  /**
    A round that no error ends settles the oldest pending continuations, as many as its batch allows, and touches
    no other that was there when it began to process.
   */
  lemma RoundsSettle(
    cfg: Settings, dir: Directory, cat: Catalog, flow: Flow, artifacts: Id -> seq<string>, actor: string, now: Time,
    found: Pass, done: Pass)
    requires Wired(cfg, flow) && found == DiscoverPass(cfg, cat, flow, 0, artifacts)
    requires done == Round(cfg, dir, cat, flow, artifacts, actor, now)
    ensures done.raised == found.raised
    ensures done.raised.None? ==>
              exists ids :: OldestPending(found.flow.continuations, 0, cfg.workflowBatch, ids)
                && Settles(found.flow, done.flow, ids)
  {
    hide Wired, DiscoverPass, ProcessEach, Settles, OldestPending;
    if found.raised.None? {
      var ids := PendingIds(found.flow.continuations, 0, cfg.workflowBatch);
      FoundIsWired(cfg, cat, flow, artifacts, found);
      BatchesExactly(found.flow.continuations, 0, cfg.workflowBatch, ids);
      BatchSettles(cfg, dir, cat, found.flow, ids, actor, now, done.flow);
    }
  }
}
