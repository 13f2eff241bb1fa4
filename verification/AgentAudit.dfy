/** The audit trail of agent requests: each transition starts where the one before it ended. */
module AgentAudit {
  import opened Tables
  import opened AgentRequests

  // ---- Audit replay ---------------------------------------------------------------------------

  predicate MovesAsk(n: Note, r: Id) {
    n.Moved? && n.request == r
  }

  /** The stage a request reaches by replaying its transitions. */
  function StageOf(notes: seq<Note>, r: Id): Stage {
    if notes == [] then Pending
    else if MovesAsk(notes[|notes| - 1], r) then notes[|notes| - 1].stage
    else StageOf(notes[..|notes| - 1], r)
  }

  predicate Allowed(from: Stage, to: Stage) {
    match from
    case Pending => to == Approved || to == Rejected
    case Approved => to == Applied || to == ApplyFailed
    case ApplyFailed => to == Applied || to == ApplyFailed || to == Retired
    case Applied => to == Retired
    case _ => false
  }

  /** Each transition starts where the one before it ended, and is a permitted one. */
  ghost predicate Chained(notes: seq<Note>) {
    forall k :: 0 <= k < |notes| && notes[k].Moved? ==>
      notes[k].previous == StageOf(notes[..k], notes[k].request) && Allowed(notes[k].previous, notes[k].stage)
  }

  ghost predicate Audited(reg: Registry) {
    && Chained(reg.notes)
    && (forall k :: 0 <= k < |reg.notes| ==> reg.notes[k].request < |reg.asks|)
    && forall r :: 0 <= r < |reg.asks| ==> reg.asks[r].stage == StageOf(reg.notes, r)
  }

  /** Whatever was approved was approved by somebody other than its requester. */
  ghost predicate Independent(asks: seq<Ask>) {
    forall r :: 0 <= r < |asks| && asks[r].stage in {Approved, Applied, ApplyFailed, Retired} ==>
      asks[r].decision.Some? && asks[r].decision.value.actor != asks[r].requester
  }

  ghost predicate Sound(reg: Registry) {
    Audited(reg) && Independent(reg.asks)
  }

  lemma ChainedAppend(notes: seq<Note>, n: Note)
    requires Chained(notes)
    requires n.Moved? ==> n.previous == StageOf(notes, n.request) && Allowed(n.previous, n.stage)
    ensures Chained(notes + [n])
    ensures forall r: Id :: StageOf(notes + [n], r) == if MovesAsk(n, r) then n.stage else StageOf(notes, r)
  {
    var after := notes + [n];
    assert after[..|notes|] == notes;
    forall k | 0 <= k < |after| && after[k].Moved?
      ensures after[k].previous == StageOf(after[..k], after[k].request) && Allowed(after[k].previous, after[k].stage)
    {
      assert after[..k] == notes[..k];
    }
  }

  lemma MoveKeepsSound(reg: Registry, r: Id, row: Ask, actor: string)
    requires Sound(reg) && r < |reg.asks| && Allowed(reg.asks[r].stage, row.stage)
    requires row.requester == reg.asks[r].requester
    requires row.stage in {Approved, Applied, ApplyFailed, Retired} ==>
               row.decision.Some? && row.decision.value.actor != row.requester
    ensures Sound(MoveAsk(reg, r, row, actor))
  {
    ChainedAppend(reg.notes, Moved(r, actor, reg.asks[r].stage, row.stage));
  }

  lemma {:induction false} UnmentionedIsPending(notes: seq<Note>, r: Id)
    requires forall k :: 0 <= k < |notes| ==> notes[k].request != r
    ensures StageOf(notes, r) == Pending
  {
    if notes != [] {
      UnmentionedIsPending(notes[..|notes| - 1], r);
    }
  }

  lemma AskKeepsSound(reg: Registry, actor: string, key: string, payload: Payload, step: Step)
    requires Sound(reg) && step == RequestAgent(reg, actor, key, payload)
    ensures Sound(step.registry)
  {
    ChainedAppend(reg.notes, Asked(|reg.asks|, actor));
    UnmentionedIsPending(reg.notes, |reg.asks|);
  }

  lemma DecideKeepsSound(
    reg: Registry, r: Id, actor: string, key: string, approve: bool, reason: string, step: Step)
    requires Sound(reg) && step == DecideRequest(reg, r, actor, key, approve, reason)
    ensures Sound(step.registry) && step.registry.agents == reg.agents
  {
    if step.registry != reg {
      var order := Order(key, (if approve then "approve:" else "reject:") + reason, actor);
      MoveKeepsSound(reg, r,
        reg.asks[r].(stage := if approve then Approved else Rejected, decision := Some(order)), actor);
    }
  }

  lemma ApplyKeepsSound(reg: Registry, r: Id, actor: string, key: string, error: Option<string>, step: Step)
    requires Sound(reg) && step == RecordApplication(reg, r, actor, key, error)
    ensures Sound(step.registry) && step.registry.agents == reg.agents
  {
    if step.registry != reg {
      var order := Order(key, match error case None => "applied" case Some(code) => "failed:" + code, actor);
      MoveKeepsSound(reg, r,
        reg.asks[r].(stage := if error.None? then Applied else ApplyFailed, application := Some(order)), actor);
    }
  }

  lemma RetireKeepsSound(reg: Registry, r: Id, actor: string, key: string, reason: string, step: Step)
    requires Sound(reg) && step == RetireRequest(reg, r, actor, key, reason)
    ensures Sound(step.registry) && step.registry.agents == reg.agents
  {
    if step.registry != reg {
      MoveKeepsSound(reg, r, reg.asks[r].(stage := Retired, retirement := Some(Order(key, reason, actor))), actor);
    }
  }
}
