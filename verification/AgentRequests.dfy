/**
  Requests for new agents: asked, decided, applied and retired, each transition audited, with an
  automatic policy that approves and provisions within fleet and role limits.
 */
module AgentRequests {
  import opened Tables

  type Id = nat

  datatype Stage = Pending | Approved | Rejected | Applied | ApplyFailed | Retired

  /** What is asked for; `details` are the fields that only the profile check looks at. */
  datatype Payload = Payload(slug: string, role: string, details: string)

  /** A command that moved a request: its key, its content and who gave it. */
  datatype Order = Order(key: string, content: string, actor: string)

  datatype Ask = Ask(
    key: string,
    requester: string,
    payload: Payload,
    stage: Stage,
    decision: Option<Order>,
    application: Option<Order>,
    retirement: Option<Order>)

  datatype Agent = Agent(slug: string, role: string, active: bool, managed: bool, rollbackKey: Option<string>)

  datatype Note = Asked(request: Id, actor: string) | Moved(request: Id, actor: string, previous: Stage, stage: Stage)

  datatype Registry = Registry(asks: seq<Ask>, agents: seq<Agent>, notes: seq<Note>)

  datatype Outcome = Done(request: Id, replayed: bool) | Refused(code: string)

  datatype Step = Step(registry: Registry, out: Outcome)

  // ---- Requests -------------------------------------------------------------------------------

  function AskedUnder(key: string): Ask -> bool {
    (a: Ask) => a.key == key
  }

  function DecidedUnder(key: string): Ask -> bool {
    (a: Ask) => a.decision.Some? && a.decision.value.key == key
  }

  function AppliedUnder(key: string): Ask -> bool {
    (a: Ask) => a.application.Some? && a.application.value.key == key
  }

  function RetiredUnder(key: string): Ask -> bool {
    (a: Ask) => a.retirement.Some? && a.retirement.value.key == key
  }

  function RequestAgent(reg: Registry, actor: string, key: string, payload: Payload): Step {
    match Last(reg.asks, AskedUnder(key))
    case Some(r) =>
      if reg.asks[r].payload != payload || reg.asks[r].requester != actor
      then Step(reg, Refused("idempotency_conflict"))
      else Step(reg, Done(r, true))
    case None =>
      var r := |reg.asks|;
      Step(reg.(asks := reg.asks + [Ask(key, actor, payload, Pending, None, None, None)],
                notes := reg.notes + [Asked(r, actor)]),
           Done(r, false))
  }

  /** Rewrite a request and audit its transition. */
  function MoveAsk(reg: Registry, r: Id, row: Ask, actor: string): Registry
    requires r < |reg.asks|
  {
    reg.(asks := reg.asks[r := row], notes := reg.notes + [Moved(r, actor, reg.asks[r].stage, row.stage)])
  }

  function DecideRequest(reg: Registry, r: Id, actor: string, key: string, approve: bool, reason: string): Step {
    if r >= |reg.asks| then Step(reg, Refused("not_found"))
    else
      var ask := reg.asks[r];
      var order := Order(key, (if approve then "approve:" else "reject:") + reason, actor);
      if ask.decision.Some? && ask.decision.value.key == key then
        if ask.decision != Some(order) then Step(reg, Refused("idempotency_conflict")) else Step(reg, Done(r, true))
      else if ask.stage != Pending then Step(reg, Refused("invalid_transition"))
      else if approve && actor == ask.requester then Step(reg, Refused("self_escalation_denied"))
      else if Has(reg.asks, DecidedUnder(key)) then Step(reg, Refused("idempotency_conflict"))
      else
        var row := ask.(stage := if approve then Approved else Rejected, decision := Some(order));
        Step(MoveAsk(reg, r, row, actor), Done(r, false))
  }

  function RecordApplication(reg: Registry, r: Id, actor: string, key: string, error: Option<string>): Step {
    if r >= |reg.asks| then Step(reg, Refused("not_found"))
    else
      var ask := reg.asks[r];
      var order := Order(key, match error case None => "applied" case Some(code) => "failed:" + code, actor);
      if ask.application.Some? && ask.application.value.key == key then
        if ask.application != Some(order) then Step(reg, Refused("idempotency_conflict")) else Step(reg, Done(r, true))
      else if ask.stage != Approved && ask.stage != ApplyFailed then Step(reg, Refused("invalid_transition"))
      else if error == Some("") then Step(reg, Refused("application_error_required"))
      else if Has(reg.asks, AppliedUnder(key)) then Step(reg, Refused("idempotency_conflict"))
      else
        var row := ask.(stage := if error.None? then Applied else ApplyFailed, application := Some(order));
        Step(MoveAsk(reg, r, row, actor), Done(r, false))
  }

  function RetireRequest(reg: Registry, r: Id, actor: string, key: string, reason: string): Step {
    if r >= |reg.asks| then Step(reg, Refused("not_found"))
    else
      var ask := reg.asks[r];
      var order := Order(key, reason, actor);
      if ask.retirement.Some? && ask.retirement.value.key == key then
        if ask.retirement != Some(order) then Step(reg, Refused("idempotency_conflict")) else Step(reg, Done(r, true))
      else if ask.stage != Applied && ask.stage != ApplyFailed then Step(reg, Refused("invalid_transition"))
      else if Has(reg.asks, RetiredUnder(key)) then Step(reg, Refused("idempotency_conflict"))
      else Step(MoveAsk(reg, r, ask.(stage := Retired, retirement := Some(order)), actor), Done(r, false))
  }

  // ---- Agents ---------------------------------------------------------------------------------

  function WithSlug(slug: string): Agent -> bool {
    (a: Agent) => a.slug == slug
  }

  function Managed(): Agent -> bool {
    (a: Agent) => a.active && a.managed
  }

  function ManagedAs(role: string): Agent -> bool {
    (a: Agent) => a.active && a.managed && a.role == role
  }

  function ManagedSlug(slug: string): Agent -> bool {
    (a: Agent) => a.active && a.managed && a.slug == slug
  }

  /** The agent's row after it was provisioned: taken over if the slug exists, created otherwise. */
  function Activate(agents: seq<Agent>, payload: Payload): seq<Agent> {
    var row := Agent(payload.slug, payload.role, true, true, None);
    match Last(agents, WithSlug(payload.slug))
    case Some(a) => agents[a := row]
    case None => agents + [row]
  }

  /** The automatic policy; `contained` says that a payload stays within the signed profile of its role. */
  datatype Policy = Policy(
    actor: string,
    maxActive: nat,
    roleLimits: map<string, nat>,
    contained: Payload -> bool)

  /** The policy's checks, with the fleet's as they are at this moment. */
  function Evaluate(policy: Policy, reg: Registry, ask: Ask): bool {
    && ask.requester != policy.actor
    && ask.payload.role in policy.roleLimits
    && !Has(reg.agents, ManagedSlug(ask.payload.slug))
    && Count(reg.agents, Managed()) < policy.maxActive
    && Count(reg.agents, ManagedAs(ask.payload.role)) < policy.roleLimits[ask.payload.role]
    && policy.contained(ask.payload)
  }

  function DecisionKey(r: Id): string {
    "agent-policy-decision:" + Decimal(r)
  }

  function ApplyKey(r: Id): string {
    "agent-policy-apply:" + Decimal(r)
  }

  predicate AppliedWith(ask: Ask, key: string) {
    ask.stage == Applied && ask.application.Some? && ask.application.value.key == key
  }

  /** What the first transaction of provisioning did, and whether the agent's row is still to come. */
  datatype Opening = Opening(step: Step, goesOn: bool)

  /**
    The first transaction of provisioning. An applied request is repeated if its agent exists; otherwise the
    provisioner's answer, an error or success, is recorded.
   */
  function BeginProvision(reg: Registry, r: Id, actor: string, key: string, error: Option<string>): Opening {
    if r >= |reg.asks| then Opening(Step(reg, Refused("not_found")), false)
    else if AppliedWith(reg.asks[r], key) then
      if error.Some? then Opening(Step(reg, Refused(error.value)), false)
      else if Last(reg.agents, WithSlug(reg.asks[r].payload.slug)).None?
      then Opening(Step(reg, Refused("provisioning_state_missing")), false)
      else Opening(Step(reg, Done(r, true)), false)
    else if reg.asks[r].stage !in {Approved, ApplyFailed} then Opening(Step(reg, Refused("invalid_transition")), false)
    else
      var recorded := RecordApplication(reg, r, actor, key, error);
      Opening(recorded, recorded.out.Done? && error.None?)
  }

  /** The second transaction. */
  function Enlist(reg: Registry, r: Id): Registry
    requires r < |reg.asks|
  {
    reg.(agents := Activate(reg.agents, reg.asks[r].payload))
  }

  /** Both transactions, with nothing in between. */
  function Provision(reg: Registry, r: Id, actor: string, key: string, error: Option<string>): Step {
    var opening := BeginProvision(reg, r, actor, key, error);
    if opening.goesOn && r < |opening.step.registry.asks| then Step(Enlist(opening.step.registry, r), Done(r, false))
    else opening.step
  }

  // ---- The policy coordinator -----------------------------------------------------------------

  /** What the policy makes of a request: nothing, a decision still to be committed, or clearance to apply it. */
  datatype Judgement = Ignored | Decides(approve: bool) | ClearsIt

  function JudgementOf(policy: Policy, reg: Registry, r: Id): Judgement {
    if r >= |reg.asks| then Ignored
    else
      var ask := reg.asks[r];
      if ask.stage == Pending then Decides(Evaluate(policy, reg, ask))
      else if ask.stage == Approved && ask.decision.Some? && ask.decision.value.actor == policy.actor
              && Evaluate(policy, reg, ask)
      then ClearsIt
      else Ignored
  }

  function PolicyDecision(policy: Policy, reg: Registry, r: Id, approve: bool): Step {
    DecideRequest(reg, r, policy.actor, DecisionKey(r), approve, "")
  }

  datatype Processed = Processed(registry: Registry, raised: Option<string>)

  /** Only the provisioner's own errors are caught. */
  function PolicyProvision(policy: Policy, reg: Registry, r: Id, error: Option<string>): Processed {
    var step := Provision(reg, r, policy.actor, ApplyKey(r), error);
    Processed(step.registry, if step.out.Refused? && error.None? then Some(step.out.code) else None)
  }

  /** `process_agent_request` with nothing in between its transactions. */
  function ProcessRequest(policy: Policy, reg: Registry, r: Id, error: Option<string>): Processed {
    match JudgementOf(policy, reg, r)
    case Ignored => Processed(reg, None)
    case ClearsIt => PolicyProvision(policy, reg, r, error)
    case Decides(approve) =>
      var decided := PolicyDecision(policy, reg, r, approve);
      if decided.out.Refused? then Processed(decided.registry, Some(decided.out.code))
      else if approve then PolicyProvision(policy, decided.registry, r, error)
      else Processed(decided.registry, None)
  }

  /** The oldest requests the policy has something to do about, at most `limit` of them. */
  function PolicyBatch(policy: Policy, asks: seq<Ask>, n: nat, limit: nat): seq<Id>
    requires n <= |asks|
    decreases |asks| - n
  {
    if n == |asks| || limit == 0 then []
    else if asks[n].stage == Pending
            || (asks[n].stage == Approved && asks[n].decision.Some? && asks[n].decision.value.actor == policy.actor)
    then [n] + PolicyBatch(policy, asks, n + 1, limit - 1)
    else PolicyBatch(policy, asks, n + 1, limit)
  }

  /** The batch is worked off until an error escapes. */
  function ProcessBatch(policy: Policy, reg: Registry, ids: seq<Id>, errors: Id -> Option<string>): Processed
    decreases ids
  {
    if ids == [] then Processed(reg, None)
    else
      var first := ProcessRequest(policy, reg, ids[0], errors(ids[0]));
      if first.raised.Some? then first else ProcessBatch(policy, first.registry, ids[1..], errors)
  }

  /** Take an applied agent back: disable its row and retire its request in one transaction. */
  function RollbackAgent(reg: Registry, r: Id, actor: string, key: string, reason: string): Step {
    if r >= |reg.asks| then Step(reg, Refused("not_found"))
    else match Last(reg.agents, WithSlug(reg.asks[r].payload.slug))
      case None => Step(reg, Refused("agent_not_found"))
      case Some(a) =>
        var agent := reg.agents[a];
        if agent.rollbackKey.Some? then
          if agent.rollbackKey == Some(key) then Step(reg, Done(r, true))
          else Step(reg, Refused("idempotency_conflict"))
        else if reg.asks[r].stage != Applied || !agent.active then Step(reg, Refused("invalid_transition"))
        else
          var stopped := reg.(agents := reg.agents[a := agent.(active := false, rollbackKey := Some(key))]);
          var retired := RetireRequest(stopped, r, actor, key, reason);
          if retired.out.Refused? then Step(reg, retired.out) else retired
  }

  // ---- The service ----------------------------------------------------------------------------

  class AgentService {
    var asks: seq<Ask>
    var agents: seq<Agent>
    var notes: seq<Note>

    constructor ()
      ensures Snapshot() == Registry([], [], [])
    {
      asks, agents, notes := [], [], [];
    }

    function Snapshot(): Registry
      reads this
    {
      Registry(asks, agents, notes)
    }

    method AppendTransitionAudit(r: Id, actor: string, previous: Stage)
      requires r < |asks|
      modifies this
      ensures asks == old(asks) && agents == old(agents)
      ensures notes == old(notes) + [Moved(r, actor, previous, asks[r].stage)]
    {
      notes := notes + [Moved(r, actor, previous, asks[r].stage)];
    }

    method Request(actor: string, key: string, payload: Payload) returns (out: Outcome)
      modifies this
      ensures Step(Snapshot(), out) == RequestAgent(old(Snapshot()), actor, key, payload)
    {
      var existing := Last(asks, AskedUnder(key));
      if existing.Some? {
        var ask := asks[existing.value];
        if ask.payload != payload || ask.requester != actor {
          return Refused("idempotency_conflict");
        }
        return Done(existing.value, true);
      }
      var r := |asks|;
      asks := asks + [Ask(key, actor, payload, Pending, None, None, None)];
      notes := notes + [Asked(r, actor)];
      out := Done(r, false);
    }

    method Decide(r: Id, actor: string, key: string, approve: bool, reason: string) returns (out: Outcome)
      modifies this
      ensures Step(Snapshot(), out) == DecideRequest(old(Snapshot()), r, actor, key, approve, reason)
    {
      if r >= |asks| {
        return Refused("not_found");
      }
      var ask := asks[r];
      var order := Order(key, (if approve then "approve:" else "reject:") + reason, actor);
      if ask.decision.Some? && ask.decision.value.key == key {
        return if ask.decision != Some(order) then Refused("idempotency_conflict") else Done(r, true);
      }
      if ask.stage != Pending {
        return Refused("invalid_transition");
      }
      if approve && actor == ask.requester {
        return Refused("self_escalation_denied");
      }
      if Has(asks, DecidedUnder(key)) {
        return Refused("idempotency_conflict");
      }
      var previous := ask.stage;
      ask := ask.(stage := if approve then Approved else Rejected);
      ask := ask.(decision := Some(order));
      asks := asks[r := ask];
      AppendTransitionAudit(r, actor, previous);
      out := Done(r, false);
    }

    method Apply(r: Id, actor: string, key: string, error: Option<string>) returns (out: Outcome)
      modifies this
      ensures Step(Snapshot(), out) == RecordApplication(old(Snapshot()), r, actor, key, error)
    {
      if r >= |asks| {
        return Refused("not_found");
      }
      var ask := asks[r];
      var order := Order(key, match error case None => "applied" case Some(code) => "failed:" + code, actor);
      if ask.application.Some? && ask.application.value.key == key {
        return if ask.application != Some(order) then Refused("idempotency_conflict") else Done(r, true);
      }
      if ask.stage != Approved && ask.stage != ApplyFailed {
        return Refused("invalid_transition");
      }
      if error == Some("") {
        return Refused("application_error_required");
      }
      if Has(asks, AppliedUnder(key)) {
        return Refused("idempotency_conflict");
      }
      var previous := ask.stage;
      ask := ask.(stage := if error.None? then Applied else ApplyFailed);
      ask := ask.(application := Some(order));
      asks := asks[r := ask];
      AppendTransitionAudit(r, actor, previous);
      out := Done(r, false);
    }

    method Retire(r: Id, actor: string, key: string, reason: string) returns (out: Outcome)
      modifies this
      ensures Step(Snapshot(), out) == RetireRequest(old(Snapshot()), r, actor, key, reason)
    {
      if r >= |asks| {
        return Refused("not_found");
      }
      var ask := asks[r];
      var order := Order(key, reason, actor);
      if ask.retirement.Some? && ask.retirement.value.key == key {
        return if ask.retirement != Some(order) then Refused("idempotency_conflict") else Done(r, true);
      }
      if ask.stage != Applied && ask.stage != ApplyFailed {
        return Refused("invalid_transition");
      }
      if Has(asks, RetiredUnder(key)) {
        return Refused("idempotency_conflict");
      }
      var previous := ask.stage;
      ask := ask.(stage := Retired);
      ask := ask.(retirement := Some(order));
      asks := asks[r := ask];
      AppendTransitionAudit(r, actor, previous);
      out := Done(r, false);
    }

    /** The first transaction of provisioning; `goesOn` if the agent's row is to follow. */
    method OpenProvision(r: Id, actor: string, key: string, error: Option<string>) returns (out: Outcome, goesOn: bool)
      modifies this
      ensures Opening(Step(Snapshot(), out), goesOn) == BeginProvision(old(Snapshot()), r, actor, key, error)
      ensures goesOn ==> r < |asks|
    {
      if r >= |asks| {
        return Refused("not_found"), false;
      }
      if AppliedWith(asks[r], key) {
        if error.Some? {
          return Refused(error.value), false;
        }
        var existing := Last(agents, WithSlug(asks[r].payload.slug));
        if existing.None? {
          return Refused("provisioning_state_missing"), false;
        }
        return Done(r, true), false;
      }
      if asks[r].stage != Approved && asks[r].stage != ApplyFailed {
        return Refused("invalid_transition"), false;
      }
      out := Apply(r, actor, key, error);
      goesOn := out.Done? && error.None?;
    }

    /** The second transaction: insert the agent's row or take it over. */
    method EnlistAgent(r: Id)
      requires r < |asks|
      modifies this
      ensures Snapshot() == Enlist(old(Snapshot()), r)
    {
      var payload := asks[r].payload;
      var existing := Last(agents, WithSlug(payload.slug));
      var row := Agent(payload.slug, payload.role, true, true, None);
      if existing.Some? {
        agents := agents[existing.value := row];
      } else {
        agents := agents + [row];
      }
    }

    /** `provision_agent_request`: record the application, then see to the agent's row. */
    method ProvisionRequest(r: Id, actor: string, key: string, error: Option<string>) returns (out: Outcome)
      modifies this
      ensures Step(Snapshot(), out) == Provision(old(Snapshot()), r, actor, key, error)
    {
      var goesOn: bool;
      out, goesOn := OpenProvision(r, actor, key, error);
      if goesOn {
        EnlistAgent(r);
        out := Done(r, false);
      }
    }

    method Rollback(r: Id, actor: string, key: string, reason: string) returns (out: Outcome)
      modifies this
      ensures Step(Snapshot(), out) == RollbackAgent(old(Snapshot()), r, actor, key, reason)
    {
      if r >= |asks| {
        return Refused("not_found");
      }
      var existing := Last(agents, WithSlug(asks[r].payload.slug));
      if existing.None? {
        return Refused("agent_not_found");
      }
      var a := existing.value;
      var agent := agents[a];
      if agent.rollbackKey.Some? {
        return if agent.rollbackKey == Some(key) then Done(r, true) else Refused("idempotency_conflict");
      }
      if asks[r].stage != Applied || !agent.active {
        return Refused("invalid_transition");
      }
      var stopped := agent.(active := false);
      stopped := stopped.(rollbackKey := Some(key));
      agents := agents[a := stopped];
      out := Retire(r, actor, key, reason);
      if out.Refused? {
        agents := agents[a := agent];
      }
    }

    method ProvisionByPolicy(policy: Policy, r: Id, error: Option<string>) returns (raised: Option<string>)
      modifies this
      ensures Processed(Snapshot(), raised) == PolicyProvision(policy, old(Snapshot()), r, error)
    {
      var out := ProvisionRequest(r, policy.actor, ApplyKey(r), error);
      raised := if out.Refused? && error.None? then Some(out.code) else None;
    }

    /** `process_agent_request`. */
    method ProcessAgentRequest(policy: Policy, r: Id, error: Option<string>) returns (raised: Option<string>)
      modifies this
      ensures Processed(Snapshot(), raised) == ProcessRequest(policy, old(Snapshot()), r, error)
    {
      raised := None;
      match JudgementOf(policy, Snapshot(), r)
      case Ignored =>
      case ClearsIt => raised := ProvisionByPolicy(policy, r, error);
      case Decides(approve) =>
        var out := Decide(r, policy.actor, DecisionKey(r), approve, "");
        if out.Refused? {
          return Some(out.code);
        }
        if approve {
          raised := ProvisionByPolicy(policy, r, error);
        }
    }

    /** `AgentPolicyCoordinator.run_once`: an escaped error ends the pass. */
    method RunPolicy(policy: Policy, limit: nat, errors: Id -> Option<string>) returns (raised: Option<string>)
      modifies this
      ensures Processed(Snapshot(), raised) ==
              ProcessBatch(policy, old(Snapshot()), PolicyBatch(policy, old(asks), 0, limit), errors)
    {
      var ids := PolicyBatch(policy, asks, 0, limit);
      ghost var whole := ProcessBatch(policy, Snapshot(), ids, errors);
      for k := 0 to |ids|
        invariant whole == ProcessBatch(policy, Snapshot(), ids[k..], errors)
      {
        raised := ProcessAgentRequest(policy, ids[k], errors(ids[k]));
        assert ids[k..][1..] == ids[k + 1..];
        if raised.Some? {
          return;
        }
      }
      raised := None;
    }
  }
}
