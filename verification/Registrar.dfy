/** Each service of the agent registry: when it does what it is asked to, what that is, and why it refuses. */
module Registrar {
  import opened Tables
  import opened AgentRequests

  // ---- Requests -------------------------------------------------------------------------------

  predicate AskedFor(reg: Registry, key: string, r: Id) {
    r < |reg.asks| && reg.asks[r].key == key
  }

  /** A request is recorded once per key, and a repeat of it is answered with the same request. */
  lemma RequestsExactly(reg: Registry, actor: string, key: string, payload: Payload, step: Step)
    requires step == RequestAgent(reg, actor, key, payload)
    ensures (forall r: Id :: !AskedFor(reg, key, r)) ==>
              && step.out == Done(|reg.asks|, false)
              && step.registry == reg.(asks := reg.asks + [Ask(key, actor, payload, Pending, None, None, None)],
                                       notes := reg.notes + [Asked(|reg.asks|, actor)])
    ensures (exists r: Id :: AskedFor(reg, key, r)) ==>
              && step.registry == reg
              && if step.out.Done? then
                   && step.out.replayed && AskedFor(reg, key, step.out.request)
                   && reg.asks[step.out.request].payload == payload && reg.asks[step.out.request].requester == actor
                 else step.out == Refused("idempotency_conflict")
    ensures forall r: Id :: AskedFor(reg, key, r) && UniqueKeys(reg) ==>
              (step.out == Done(r, true) <==> reg.asks[r].payload == payload && reg.asks[r].requester == actor)
  {
    var last := Last(reg.asks, AskedUnder(key));
    forall r: Id | AskedFor(reg, key, r) ensures last.Some? && (UniqueKeys(reg) ==> last == Some(r)) {
      assert AskedUnder(key)(reg.asks[r]);
    }
    if last.Some? {
      assert AskedFor(reg, key, last.value);
    }
  }

  ghost predicate UniqueKeys(reg: Registry) {
    forall q, r :: 0 <= q < r < |reg.asks| ==> reg.asks[q].key != reg.asks[r].key
  }

  // ---- Transitions ------------------------------------------------------------------------------

  /** The request was moved to a stage by an order, which is on its row and in the audit; nothing else changed. */
  predicate Advanced(reg: Registry, after: Registry, r: Id, row: Ask, actor: string) {
    && r < |reg.asks| && after.asks == reg.asks[r := row] && after.agents == reg.agents
    && after.notes == reg.notes + [Moved(r, actor, reg.asks[r].stage, row.stage)]
  }

  predicate KeyDecided(reg: Registry, key: string) {
    exists q :: 0 <= q < |reg.asks| && reg.asks[q].decision.Some? && reg.asks[q].decision.value.key == key
  }

  predicate KeyApplied(reg: Registry, key: string) {
    exists q :: 0 <= q < |reg.asks| && reg.asks[q].application.Some? && reg.asks[q].application.value.key == key
  }

  predicate KeyRetired(reg: Registry, key: string) {
    exists q :: 0 <= q < |reg.asks| && reg.asks[q].retirement.Some? && reg.asks[q].retirement.value.key == key
  }

  lemma KeysAreFound(reg: Registry, key: string)
    ensures Has(reg.asks, DecidedUnder(key)) <==> KeyDecided(reg, key)
    ensures Has(reg.asks, AppliedUnder(key)) <==> KeyApplied(reg, key)
    ensures Has(reg.asks, RetiredUnder(key)) <==> KeyRetired(reg, key)
  {
    if q :| 0 <= q < |reg.asks| && reg.asks[q].decision.Some? && reg.asks[q].decision.value.key == key {
      assert DecidedUnder(key)(reg.asks[q]);
    }
    if q :| 0 <= q < |reg.asks| && reg.asks[q].application.Some? && reg.asks[q].application.value.key == key {
      assert AppliedUnder(key)(reg.asks[q]);
    }
    if q :| 0 <= q < |reg.asks| && reg.asks[q].retirement.Some? && reg.asks[q].retirement.value.key == key {
      assert RetiredUnder(key)(reg.asks[q]);
    }
  }

  /** The answer to a key that the request's last order of that kind already bears. */
  function Repeated(last: Order, order: Order, r: Id): Outcome {
    if last == order then Done(r, true) else Refused("idempotency_conflict")
  }

  /** A pending request is decided once, approved only by somebody other than its requester. */
  lemma DecisionsExactly(
    reg: Registry, r: Id, actor: string, key: string, approve: bool, reason: string, step: Step)
    requires step == DecideRequest(reg, r, actor, key, approve, reason)
    ensures var order := Order(key, (if approve then "approve:" else "reject:") + reason, actor);
            if r >= |reg.asks| then step == Step(reg, Refused("not_found"))
            else
              var ask := reg.asks[r];
              if ask.decision.Some? && ask.decision.value.key == key then
                step == Step(reg, Repeated(ask.decision.value, order, r))
              else if ask.stage == Pending && !(approve && ask.requester == actor) && !KeyDecided(reg, key) then
                && step.out == Done(r, false)
                && Advanced(reg, step.registry, r,
                     ask.(stage := if approve then Approved else Rejected, decision := Some(order)), actor)
              else
                step == Step(reg, Refused(
                  if ask.stage != Pending then "invalid_transition"
                  else if approve && ask.requester == actor then "self_escalation_denied"
                  else "idempotency_conflict"))
  {
    KeysAreFound(reg, key);
  }

  /** The outcome of an application is recorded for an approved request, or for one whose application failed. */
  lemma ApplicationsExactly(reg: Registry, r: Id, actor: string, key: string, error: Option<string>, step: Step)
    requires step == RecordApplication(reg, r, actor, key, error)
    ensures var order := Order(key, if error.None? then "applied" else "failed:" + error.value, actor);
            if r >= |reg.asks| then step == Step(reg, Refused("not_found"))
            else
              var ask := reg.asks[r];
              if ask.application.Some? && ask.application.value.key == key then
                step == Step(reg, Repeated(ask.application.value, order, r))
              else if ask.stage in {Approved, ApplyFailed} && error != Some("") && !KeyApplied(reg, key) then
                && step.out == Done(r, false)
                && Advanced(reg, step.registry, r,
                     ask.(stage := if error.None? then Applied else ApplyFailed, application := Some(order)), actor)
              else
                step == Step(reg, Refused(
                  if ask.stage !in {Approved, ApplyFailed} then "invalid_transition"
                  else if error == Some("") then "application_error_required"
                  else "idempotency_conflict"))
  {
    KeysAreFound(reg, key);
  }

  lemma RetirementsExactly(reg: Registry, r: Id, actor: string, key: string, reason: string, step: Step)
    requires step == RetireRequest(reg, r, actor, key, reason)
    ensures if r >= |reg.asks| then step == Step(reg, Refused("not_found"))
            else
              var ask := reg.asks[r];
              if ask.retirement.Some? && ask.retirement.value.key == key then
                step == Step(reg, Repeated(ask.retirement.value, Order(key, reason, actor), r))
              else if ask.stage in {Applied, ApplyFailed} && !KeyRetired(reg, key) then
                && step.out == Done(r, false)
                && Advanced(reg, step.registry, r,
                     ask.(stage := Retired, retirement := Some(Order(key, reason, actor))), actor)
              else
                step == Step(reg, Refused(
                  if ask.stage !in {Applied, ApplyFailed} then "invalid_transition" else "idempotency_conflict"))
  {
    KeysAreFound(reg, key);
  }

  // ---- Agents -----------------------------------------------------------------------------------

  /** The newest row of a name; there is one row per name unless the table was filled otherwise. */
  predicate NewestRow(agents: seq<Agent>, slug: string, a: Id) {
    a < |agents| && agents[a].slug == slug && forall b :: a < b < |agents| ==> agents[b].slug != slug
  }

  lemma NewestRowIsLast(agents: seq<Agent>, slug: string)
    ensures forall a: Id :: NewestRow(agents, slug, a) <==> Last(agents, WithSlug(slug)) == Some(a)
  {
    forall a: Id ensures NewestRow(agents, slug, a) <==> Last(agents, WithSlug(slug)) == Some(a) {
      if NewestRow(agents, slug, a) {
        assert WithSlug(slug)(agents[a]);
      }
    }
  }

  /** Enlisting takes over the row of the name, or adds one, active and managed and free of earlier rollbacks. */
  lemma EnlistingExactly(reg: Registry, r: Id, after: Registry)
    requires r < |reg.asks| && after == Enlist(reg, r)
    ensures after.asks == reg.asks && after.notes == reg.notes
    ensures var row := Agent(reg.asks[r].payload.slug, reg.asks[r].payload.role, true, true, None);
            && (forall a: Id :: NewestRow(reg.agents, row.slug, a) ==> after.agents == reg.agents[a := row])
            && ((forall a: Id :: !NewestRow(reg.agents, row.slug, a)) ==> after.agents == reg.agents + [row])
  {
    NewestRowIsLast(reg.agents, reg.asks[r].payload.slug);
    var last := Last(reg.agents, WithSlug(reg.asks[r].payload.slug));
    if last.Some? {
      assert NewestRow(reg.agents, reg.asks[r].payload.slug, last.value);
    }
  }

  /** An agent is taken back once: its row is disabled under the key, and its applied request is retired. */
  lemma TakingBackExactly(reg: Registry, r: Id, a: Id, actor: string, key: string, reason: string, step: Step)
    requires r < |reg.asks| && NewestRow(reg.agents, reg.asks[r].payload.slug, a)
    requires step == RollbackAgent(reg, r, actor, key, reason)
    ensures var agent, ask := reg.agents[a], reg.asks[r];
            if agent.rollbackKey.Some? then
              step == Step(reg,
                if agent.rollbackKey.value == key then Done(r, true) else Refused("idempotency_conflict"))
            else if ask.stage != Applied || !agent.active then step == Step(reg, Refused("invalid_transition"))
            else if ask.retirement.Some? && ask.retirement.value.key == key then
              step == if ask.retirement.value == Order(key, reason, actor) then
                        Step(reg.(agents := reg.agents[a := agent.(active := false, rollbackKey := Some(key))]),
                             Done(r, true))
                      else Step(reg, Refused("idempotency_conflict"))
            else if KeyRetired(reg, key) then step == Step(reg, Refused("idempotency_conflict"))
            else
              && step.out == Done(r, false)
              && step.registry.agents == reg.agents[a := agent.(active := false, rollbackKey := Some(key))]
              && step.registry.asks == reg.asks[r :=
                   ask.(stage := Retired, retirement := Some(Order(key, reason, actor)))]
              && step.registry.notes == reg.notes + [Moved(r, actor, Applied, Retired)]
  {
    NewestRowIsLast(reg.agents, reg.asks[r].payload.slug);
    var stopped := reg.(agents := reg.agents[a := reg.agents[a].(active := false, rollbackKey := Some(key))]);
    KeysAreFound(stopped, key);
    RetirementsExactly(stopped, r, actor, key, reason, RetireRequest(stopped, r, actor, key, reason));
  }

  /** Without a row of the name there is nothing to take back. */
  lemma NothingToTakeBack(reg: Registry, r: Id, actor: string, key: string, reason: string, step: Step)
    requires r >= |reg.asks| || forall a :: 0 <= a < |reg.agents| ==> reg.agents[a].slug != reg.asks[r].payload.slug
    requires step == RollbackAgent(reg, r, actor, key, reason)
    ensures step == Step(reg, Refused(if r >= |reg.asks| then "not_found" else "agent_not_found"))
  {
  }

  // ---- The policy ---------------------------------------------------------------------------------

  function OnDuty(): Agent -> bool {
    (a: Agent) => a.active && a.managed
  }

  function OnDutyAs(role: string): Agent -> bool {
    (a: Agent) => a.active && a.managed && a.role == role
  }

  /** The policy may grant it: asked by another, within the profile of a known role, new, and with room left. */
  predicate Grantable(policy: Policy, reg: Registry, ask: Ask) {
    && ask.requester != policy.actor && policy.contained(ask.payload) && ask.payload.role in policy.roleLimits
    && (forall a :: 0 <= a < |reg.agents| && reg.agents[a].slug == ask.payload.slug ==>
          !(reg.agents[a].active && reg.agents[a].managed))
    && Count(reg.agents, OnDuty()) < policy.maxActive
    && Count(reg.agents, OnDutyAs(ask.payload.role)) < policy.roleLimits[ask.payload.role]
  }

  lemma EvaluatesExactly(policy: Policy, reg: Registry, ask: Ask)
    ensures Evaluate(policy, reg, ask) <==> Grantable(policy, reg, ask)
  {
    CountSame(reg.agents, reg.agents, Managed(), OnDuty());
    CountSame(reg.agents, reg.agents, ManagedAs(ask.payload.role), OnDutyAs(ask.payload.role));
    if a :| 0 <= a < |reg.agents| && reg.agents[a].slug == ask.payload.slug
            && reg.agents[a].active && reg.agents[a].managed {
      assert ManagedSlug(ask.payload.slug)(reg.agents[a]);
    }
  }

  /** Provisioning enlists the agent only of a request that was approved, and only if the provisioner succeeded. */
  lemma ProvisionsExactly(reg: Registry, r: Id, actor: string, key: string, error: Option<string>, step: Step)
    requires step == Provision(reg, r, actor, key, error)
    ensures step.registry.agents != reg.agents ==>
              && r < |reg.asks| && reg.asks[r].stage in {Approved, ApplyFailed} && error.None?
              && step.out == Done(r, false) && step.registry.agents == Activate(reg.agents, reg.asks[r].payload)
              && (!KeyApplied(reg, key) ==> step.registry.asks == reg.asks[r :=
                   reg.asks[r].(stage := Applied, application := Some(Order(key, "applied", actor)))])
    ensures r < |reg.asks| && reg.asks[r].stage in {Approved, ApplyFailed} && error.None? && !KeyApplied(reg, key) ==>
              step.registry.agents == Activate(reg.agents, reg.asks[r].payload) && step.out == Done(r, false)
    ensures r < |reg.asks| && reg.asks[r].stage in {Approved, ApplyFailed} && error.Some? ==>
              step == RecordApplication(reg, r, actor, key, error)
    ensures r < |reg.asks| && reg.asks[r].stage !in {Approved, ApplyFailed} ==> step.registry == reg
  {
    hide Activate;
    ApplicationsExactly(reg, r, actor, key, error, RecordApplication(reg, r, actor, key, error));
  }

  /** The policy enlists an agent only for a request that it may grant at that moment. */
  lemma ProcessingIsVetted(policy: Policy, reg: Registry, r: Id, error: Option<string>, done: Processed)
    requires done == ProcessRequest(policy, reg, r, error)
    ensures done.registry.agents != reg.agents ==>
              && r < |reg.asks| && Grantable(policy, reg, reg.asks[r]) && error.None?
              && done.registry.agents == Activate(reg.agents, reg.asks[r].payload)
    ensures r < |reg.asks| && reg.asks[r].stage == Pending && !Grantable(policy, reg, reg.asks[r])
            && !KeyDecided(reg, DecisionKey(r)) ==>
              done.raised.None? && |done.registry.asks| == |reg.asks| && done.registry.asks[r].stage == Rejected
  {
    hide Evaluate, Activate, Provision, Grantable, DecisionKey;
    if r < |reg.asks| {
      EvaluatesExactly(policy, reg, reg.asks[r]);
      var judgement := JudgementOf(policy, reg, r);
      if judgement.Decides? {
        var decided := PolicyDecision(policy, reg, r, judgement.approve);
        DecisionsExactly(reg, r, policy.actor, DecisionKey(r), judgement.approve, "", decided);
        ProvisionsExactly(decided.registry, r, policy.actor, ApplyKey(r), error,
          Provision(decided.registry, r, policy.actor, ApplyKey(r), error));
      } else if judgement.ClearsIt? {
        ProvisionsExactly(reg, r, policy.actor, ApplyKey(r), error,
          Provision(reg, r, policy.actor, ApplyKey(r), error));
      }
    }
  }

  /** The policy has something to do about it: it is pending, or the policy has approved it. */
  predicate Concerns(policy: Policy, ask: Ask) {
    || ask.stage == Pending
    || (ask.stage == Approved && ask.decision.Some? && ask.decision.value.actor == policy.actor)
  }

  /** The batch was full of older requests. */
  ghost predicate LeftOver(limit: nat, ids: seq<Id>, r: Id) {
    |ids| == limit && forall k :: 0 <= k < |ids| ==> ids[k] < r
  }

  /** The policy's pass takes the oldest requests that concern it, in order, as many as its limit allows. */
  lemma {:induction false} PolicyBatchesExactly(policy: Policy, asks: seq<Ask>, n: nat, limit: nat, ids: seq<Id>)
    requires n <= |asks| && ids == PolicyBatch(policy, asks, n, limit)
    ensures |ids| <= limit
    ensures forall k :: 0 <= k < |ids| ==> n <= ids[k] < |asks| && Concerns(policy, asks[ids[k]])
    ensures forall j, k :: 0 <= j < k < |ids| ==> ids[j] < ids[k]
    ensures forall r: Id :: n <= r < |asks| && Concerns(policy, asks[r]) && r !in ids ==> LeftOver(limit, ids, r)
    decreases |asks| - n
  {
    if n < |asks| && limit > 0 {
      if Concerns(policy, asks[n]) {
        var rest := PolicyBatch(policy, asks, n + 1, limit - 1);
        PolicyBatchesExactly(policy, asks, n + 1, limit - 1, rest);
        assert ids == [n] + rest;
        forall r: Id | n <= r < |asks| && Concerns(policy, asks[r]) && r !in ids ensures LeftOver(limit, ids, r) {
          assert r != ids[0] && r !in rest;
          assert LeftOver(limit - 1, rest, r);
        }
      } else {
        PolicyBatchesExactly(policy, asks, n + 1, limit, ids);
      }
    }
  }
}
