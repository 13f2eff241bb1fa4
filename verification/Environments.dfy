/**
  Deployments and their promotion from dev to pre to prod-sim. A row's id is its index. A request is
  recorded as an action under its idempotency key; a rejection commits what was done before it.
 */
module Environments {
  import opened Tables

  type Id = nat

  datatype Stage = Local | Dev | Pre | ProdSim | Live

  datatype Ref = Branch(name: string) | Sha(sha: string) | Tag(tag: string)

  datatype State = Active | Superseded | Expired

  /** `slot` is the task of a local deployment and `None` for the shared one. */
  datatype Deployment = Deployment(
    stage: Stage,
    slot: Option<Id>,
    repository: string,
    ref: Ref,
    sha: string,
    port: Option<int>,
    expiresAt: Option<int>,
    state: State,
    source: Option<Id>,
    rollbackOf: Option<Id>,
    requester: string,
    approver: Option<string>)

  datatype Approval = Approval(actor: string, reason: string)

  datatype Request =
    | Deploy(stage: Stage, repository: string, branch: string, sha: string, task: Option<Id>, ttlSeconds: Option<int>)
    | Expire(deployment: Id)
    | Promote(source: Id, target: Stage, repository: string, sha: string, tag: Option<string>,
              approval: Option<Approval>)
    | Rollback(stage: Stage, candidate: Id, evidence: Approval)

  datatype Progress = Requested | Applied(deployment: Id, previous: Option<Id>) | Rejected(code: string)

  datatype Action = Action(requester: string, key: string, request: Request, progress: Progress)

  datatype Env = Env(deployments: seq<Deployment>, actions: seq<Action>)

  datatype Outcome = Done(deployment: Id, replayed: bool) | Refused(code: string)

  datatype Step = Step(env: Env, out: Outcome)

  datatype Policy = Policy(
    repositories: set<string>,
    developers: set<string>,
    approvers: set<string>,
    operators: set<string>,
    portStart: int,
    portEnd: int,
    defaultTtlSeconds: int,
    maxTtlSeconds: int)

  // ---- Queries --------------------------------------------------------------------------------

  function KeyedBy(key: string): Action -> bool {
    (a: Action) => a.key == key
  }

  function InSlot(stage: Stage, slot: Option<Id>): Deployment -> bool {
    (d: Deployment) => d.stage == stage && d.slot == slot && d.state == Active
  }

  function Current(rows: seq<Deployment>, stage: Stage, slot: Option<Id>): Option<Id> {
    Last(rows, InSlot(stage, slot))
  }

  predicate ActiveLocal(d: Deployment) {
    d.stage == Local && d.state == Active
  }

  predicate DueAt(d: Deployment, now: int) {
    ActiveLocal(d) && d.expiresAt.Some? && d.expiresAt.value <= now
  }

  /** Local deployments past their time are expired before a port is chosen. */
  function ExpireDue(rows: seq<Deployment>, now: int): (after: seq<Deployment>)
    ensures |after| == |rows|
    ensures forall i :: 0 <= i < |rows| ==>
              after[i] == if DueAt(rows[i], now) then rows[i].(state := Expired) else rows[i]
  {
    if rows == [] then []
    else
      var d := rows[|rows| - 1];
      ExpireDue(rows[..|rows| - 1], now) + [if DueAt(d, now) then d.(state := Expired) else d]
  }

  function UsedPorts(rows: seq<Deployment>): set<int> {
    set i | 0 <= i < |rows| && ActiveLocal(rows[i]) && rows[i].port.Some? :: rows[i].port.value
  }

  /** The lowest port of the pool that is not used. */
  function LowestFree(used: set<int>, start: int, end: int): (port: Option<int>)
    ensures port.Some? ==> start <= port.value <= end && port.value !in used
    ensures port.Some? ==> forall p :: start <= p < port.value ==> p in used
    ensures port.None? ==> forall p :: start <= p <= end ==> p in used
    decreases end - start
  {
    if start > end then None
    else if start !in used then Some(start)
    else LowestFree(used, start + 1, end)
  }

  predicate AlphaNumeric(c: char) {
    '0' <= c <= '9' || 'A' <= c <= 'Z' || 'a' <= c <= 'z'
  }

  predicate SafeTag(tag: string) {
    && 1 <= |tag| <= 300 && AlphaNumeric(tag[0])
    && forall i :: 0 < i < |tag| ==> AlphaNumeric(tag[i]) || tag[i] in {'.', '_', '/', '-'}
  }

  /** An approval counts only if somebody else gives it who may, and for prod-sim an operator or the owner. */
  predicate Approves(policy: Policy, requester: string, approver: string, operatorOnly: bool) {
    approver != requester && approver in policy.approvers && (operatorOnly ==> approver in policy.operators)
  }

  // ---- Steps ----------------------------------------------------------------------------------

  /** The request seen before, if there is one; otherwise the action is recorded. */
  datatype Begun = Fresh(env: Env) | Seen(out: Outcome)

  function Begin(env: Env, actor: string, key: string, request: Request): Begun {
    match Last(env.actions, KeyedBy(key))
    case None => Fresh(env.(actions := env.actions + [Action(actor, key, request, Requested)]))
    case Some(a) =>
      var action := env.actions[a];
      if action.request != request || action.requester != actor then Seen(Refused("idempotency_conflict"))
      else match action.progress
        case Requested => Seen(Refused("environment_action_rejected"))
        case Rejected(code) => Seen(Refused(code))
        case Applied(d, _) =>
          if d < |env.deployments| then Seen(Done(d, true)) else Seen(Refused("deployment_not_found"))
  }

  function Conclude(env: Env, progress: Progress): Env
    requires env.actions != []
  {
    var last := |env.actions| - 1;
    env.(actions := env.actions[last := env.actions[last].(progress := progress)])
  }

  function Reject(env: Env, code: string): Step
    requires env.actions != []
  {
    Step(Conclude(env, Rejected(code)), Refused(code))
  }

  /** The rows once the slot's current deployment, if there is one, is superseded. */
  function Vacated(rows: seq<Deployment>, previous: Option<Id>): (after: seq<Deployment>)
    requires previous.Some? ==> previous.value < |rows|
    ensures |after| == |rows|
  {
    match previous
    case None => rows
    case Some(p) => rows[p := rows[p].(state := Superseded)]
  }

  /** Supersede the current deployment of the slot, if any, and add the new one. */
  function Install(env: Env, row: Deployment): Step
    requires env.actions != []
  {
    var previous := Current(env.deployments, row.stage, row.slot);
    var rows := Vacated(env.deployments, previous);
    Step(Conclude(env.(deployments := rows + [row]), Applied(|rows|, previous)), Done(|rows|, false))
  }

  /** Once due deployments are expired: one local deployment per task, on the lowest free port. */
  function PlaceLocal(policy: Policy, swept: Env, actor: string, r: Request, ttl: int, now: int): Step
    requires swept.actions != [] && r.Deploy?
  {
    if Current(swept.deployments, Local, r.task).Some? then Reject(swept, "local_already_active")
    else match LowestFree(UsedPorts(swept.deployments), policy.portStart, policy.portEnd)
      case None => Reject(swept, "local_port_pool_exhausted")
      case Some(port) =>
        Install(swept, Deployment(Local, r.task, r.repository, Branch(r.branch), r.sha, Some(port),
                                  Some(now + 1000 * ttl), Active, None, None, actor, None))
  }

  /** A missing or zero time to live means the default. */
  function Ttl(policy: Policy, r: Request): int
    requires r.Deploy?
  {
    if r.ttlSeconds.Some? && r.ttlSeconds.value != 0 then r.ttlSeconds.value else policy.defaultTtlSeconds
  }

  function DeployLocal(policy: Policy, tasks: nat, env: Env, actor: string, r: Request, now: int): Step
    requires env.actions != [] && r.Deploy?
  {
    if r.task.None? || r.task.value >= tasks then Reject(env, "local_task_required")
    else
      var ttl := Ttl(policy, r);
      if ttl > policy.maxTtlSeconds then Reject(env, "local_ttl_exceeded")
      else PlaceLocal(policy, env.(deployments := ExpireDue(env.deployments, now)), actor, r, ttl, now)
  }

  function DeployEnvironment(
    policy: Policy, tasks: nat, env: Env, actor: string, key: string, r: Request, now: int): Step
    requires r.Deploy? && (r.stage == Local || r.stage == Dev)
  {
    match Begin(env, actor, key, r)
    case Seen(out) => Step(env, out)
    case Fresh(begun) =>
      if r.repository !in policy.repositories then Reject(begun, "repository_not_allowed")
      else if actor in policy.developers && r.stage != Local then Reject(begun, "developer_scope_denied")
      else if r.stage == Local then DeployLocal(policy, tasks, begun, actor, r, now)
      else if r.task.Some? || r.ttlSeconds.Some? then Reject(begun, "dev_local_fields_denied")
      else
        Install(begun, Deployment(Dev, None, r.repository, Branch(r.branch), r.sha, None, None, Active, None, None,
                                  actor, None))
  }

  function ExpireLocal(env: Env, actor: string, key: string, deployment: Id): Step {
    match Begin(env, actor, key, Expire(deployment))
    case Seen(out) => Step(env, out)
    case Fresh(begun) =>
      if deployment >= |env.deployments| || env.deployments[deployment].stage != Local then
        Reject(begun, "local_deployment_not_found")
      else
        var rows := env.deployments[deployment := env.deployments[deployment].(state := Expired)];
        Step(Conclude(begun.(deployments := rows), Applied(deployment, None)), Done(deployment, false))
  }

  function SourceStage(target: Stage): Stage {
    if target == Pre then Dev else Pre
  }

  predicate Promotable(env: Env, r: Request)
    requires r.Promote?
  {
    && r.source < |env.deployments| && env.deployments[r.source].state == Active
    && env.deployments[r.source].stage == SourceStage(r.target)
  }

  function PromoteEnvironment(policy: Policy, env: Env, actor: string, key: string, r: Request): Step
    requires r.Promote? && (r.target == Pre || r.target == ProdSim || r.target == Live)
  {
    match Begin(env, actor, key, r)
    case Seen(out) => Step(env, out)
    case Fresh(begun) =>
      if r.target == Live then Reject(begun, "live_environment_denied")
      else if !Promotable(env, r) then Reject(begun, "invalid_promotion_source")
      else if || r.repository !in policy.repositories
              || r.repository != env.deployments[r.source].repository || r.sha != env.deployments[r.source].sha
      then Reject(begun, "immutable_ref_mismatch")
      else if r.approval.None? || !Approves(policy, actor, r.approval.value.actor, r.target == ProdSim) then
        Reject(begun, "independent_approval_required")
      else if r.target == Pre && r.tag.Some? then Reject(begun, "pre_tag_denied")
      else if r.target == ProdSim && (r.tag.None? || !SafeTag(r.tag.value)) then Reject(begun, "immutable_tag_required")
      else
        Install(begun, Deployment(r.target, None, r.repository,
                                  if r.target == Pre then Sha(r.sha) else Tag(r.tag.value), r.sha, None, None, Active,
                                  Some(r.source), None, actor, Some(r.approval.value.actor)))
  }

  function RollbackEnvironment(policy: Policy, env: Env, actor: string, key: string, r: Request): Step
    requires r.Rollback?
  {
    match Begin(env, actor, key, r)
    case Seen(out) => Step(env, out)
    case Fresh(begun) =>
      if r.stage != Pre && r.stage != ProdSim then Reject(begun, "rollback_environment_denied")
      else
        var current := Current(env.deployments, r.stage, None);
        if r.candidate >= |env.deployments| || env.deployments[r.candidate].stage != r.stage || current.None? then
          Reject(begun, "rollback_target_not_found")
        else if !Approves(policy, actor, r.evidence.actor, r.stage == ProdSim) then
          Reject(begun, "independent_approval_required")
        else
          var target := env.deployments[r.candidate];
          Install(begun, Deployment(r.stage, None, target.repository, target.ref, target.sha, None, None, Active,
                                    target.source, current, actor, Some(r.evidence.actor)))
  }

  // ---- The service ----------------------------------------------------------------------------

  class EnvironmentService {
    const policy: Policy
    var deployments: seq<Deployment>
    var actions: seq<Action>

    constructor (policy: Policy)
      ensures this.policy == policy && Snapshot() == Env([], [])
    {
      this.policy := policy;
      deployments, actions := [], [];
    }

    function Snapshot(): Env
      reads this
    {
      Env(deployments, actions)
    }

    method Settle(progress: Progress)
      requires actions != []
      modifies this
      ensures Snapshot() == Conclude(old(Snapshot()), progress)
    {
      var last := |actions| - 1;
      actions := actions[last := actions[last].(progress := progress)];
    }

    method RejectAction(code: string) returns (out: Outcome)
      requires actions != []
      modifies this
      ensures Step(Snapshot(), out) == Reject(old(Snapshot()), code)
    {
      Settle(Rejected(code));
      out := Refused(code);
    }

    /** `_begin_action`: the recorded answer of an earlier request, or `None` once the new one is recorded. */
    method BeginAction(actor: string, key: string, request: Request) returns (replay: Option<Outcome>)
      modifies this
      ensures match Begin(old(Snapshot()), actor, key, request)
              case Seen(out) => replay == Some(out) && Snapshot() == old(Snapshot())
              case Fresh(env) => replay == None && Snapshot() == env && actions != []
    {
      var existing := Last(actions, KeyedBy(key));
      if existing.Some? {
        var action := actions[existing.value];
        if action.request != request || action.requester != actor {
          return Some(Refused("idempotency_conflict"));
        }
        match action.progress
        case Requested => return Some(Refused("environment_action_rejected"));
        case Rejected(code) => return Some(Refused(code));
        case Applied(d, _) =>
          return Some(if d < |deployments| then Done(d, true) else Refused("deployment_not_found"));
      }
      actions := actions + [Action(actor, key, request, Requested)];
      replay := None;
    }

    method InstallDeployment(row: Deployment) returns (out: Outcome)
      requires actions != []
      modifies this
      ensures Step(Snapshot(), out) == Install(old(Snapshot()), row)
    {
      var previous := Current(deployments, row.stage, row.slot);
      if previous.Some? {
        deployments := deployments[previous.value := deployments[previous.value].(state := Superseded)];
      }
      var id := |deployments|;
      deployments := deployments + [row];
      Settle(Applied(id, previous));
      out := Done(id, false);
    }

    method ExpireDueLocals(now: int)
      modifies this
      ensures Snapshot() == old(Snapshot()).(deployments := ExpireDue(old(deployments), now))
    {
      for i := 0 to |deployments|
        invariant actions == old(actions) && |deployments| == |old(deployments)|
        invariant forall k :: 0 <= k < |deployments| ==>
                    deployments[k] == if k < i then ExpireDue(old(deployments), now)[k] else old(deployments)[k]
      {
        if DueAt(deployments[i], now) {
          deployments := deployments[i := deployments[i].(state := Expired)];
        }
      }
    }

    /** The search for the first candidate that is not in use. */
    method FindPort(used: set<int>) returns (port: Option<int>)
      ensures port == LowestFree(used, policy.portStart, policy.portEnd)
    {
      var candidate := policy.portStart;
      while candidate <= policy.portEnd
        invariant LowestFree(used, policy.portStart, policy.portEnd) == LowestFree(used, candidate, policy.portEnd)
        decreases policy.portEnd - candidate
      {
        if candidate !in used {
          return Some(candidate);
        }
        candidate := candidate + 1;
      }
      port := None;
    }

    method InstallLocal(tasks: nat, actor: string, r: Request, now: int) returns (out: Outcome)
      requires actions != [] && r.Deploy?
      modifies this
      ensures Step(Snapshot(), out) == DeployLocal(policy, tasks, old(Snapshot()), actor, r, now)
    {
      if r.task.None? || r.task.value >= tasks {
        out := RejectAction("local_task_required");
        return;
      }
      var ttl := policy.defaultTtlSeconds;
      if r.ttlSeconds.Some? && r.ttlSeconds.value != 0 {
        ttl := r.ttlSeconds.value;
      }
      if ttl > policy.maxTtlSeconds {
        out := RejectAction("local_ttl_exceeded");
        return;
      }
      ExpireDueLocals(now);
      if Current(deployments, Local, r.task).Some? {
        out := RejectAction("local_already_active");
        return;
      }
      var port := FindPort(UsedPorts(deployments));
      if port.None? {
        out := RejectAction("local_port_pool_exhausted");
        return;
      }
      out := InstallDeployment(
        Deployment(Local, r.task, r.repository, Branch(r.branch), r.sha, port, Some(now + 1000 * ttl), Active, None,
                   None, actor, None));
    }

    method Deploy(tasks: nat, actor: string, key: string, r: Request, now: int) returns (out: Outcome)
      requires r.Deploy? && (r.stage == Local || r.stage == Dev)
      modifies this
      ensures Step(Snapshot(), out) == DeployEnvironment(policy, tasks, old(Snapshot()), actor, key, r, now)
    {
      var replay := BeginAction(actor, key, r);
      if replay.Some? {
        return replay.value;
      }
      if r.repository !in policy.repositories {
        out := RejectAction("repository_not_allowed");
      } else if actor in policy.developers && r.stage != Local {
        out := RejectAction("developer_scope_denied");
      } else if r.stage == Local {
        out := InstallLocal(tasks, actor, r, now);
      } else if r.task.Some? || r.ttlSeconds.Some? {
        out := RejectAction("dev_local_fields_denied");
      } else {
        out := InstallDeployment(
          Deployment(Dev, None, r.repository, Branch(r.branch), r.sha, None, None, Active, None, None, actor, None));
      }
    }

    method Expire(actor: string, key: string, deployment: Id) returns (out: Outcome)
      modifies this
      ensures Step(Snapshot(), out) == ExpireLocal(old(Snapshot()), actor, key, deployment)
    {
      var replay := BeginAction(actor, key, Request.Expire(deployment));
      if replay.Some? {
        return replay.value;
      }
      if deployment >= |deployments| || deployments[deployment].stage != Local {
        out := RejectAction("local_deployment_not_found");
        return;
      }
      deployments := deployments[deployment := deployments[deployment].(state := Expired)];
      Settle(Applied(deployment, None));
      out := Done(deployment, false);
    }

    method Promote(actor: string, key: string, r: Request) returns (out: Outcome)
      requires r.Promote? && (r.target == Pre || r.target == ProdSim || r.target == Live)
      modifies this
      ensures Step(Snapshot(), out) == PromoteEnvironment(policy, old(Snapshot()), actor, key, r)
    {
      var replay := BeginAction(actor, key, r);
      if replay.Some? {
        return replay.value;
      }
      if r.target == Live {
        out := RejectAction("live_environment_denied");
        return;
      }
      if !Promotable(Snapshot(), r) {
        out := RejectAction("invalid_promotion_source");
        return;
      }
      var source := deployments[r.source];
      if r.repository !in policy.repositories || r.repository != source.repository || r.sha != source.sha {
        out := RejectAction("immutable_ref_mismatch");
        return;
      }
      if r.approval.None? || !Approves(policy, actor, r.approval.value.actor, r.target == ProdSim) {
        out := RejectAction("independent_approval_required");
        return;
      }
      var ref := Sha(r.sha);
      if r.target == Pre {
        if r.tag.Some? {
          out := RejectAction("pre_tag_denied");
          return;
        }
      } else {
        if r.tag.None? || !SafeTag(r.tag.value) {
          out := RejectAction("immutable_tag_required");
          return;
        }
        ref := Tag(r.tag.value);
      }
      out := InstallDeployment(
        Deployment(r.target, None, r.repository, ref, r.sha, None, None, Active, Some(r.source), None, actor,
                   Some(r.approval.value.actor)));
    }

    method Rollback(actor: string, key: string, r: Request) returns (out: Outcome)
      requires r.Rollback?
      modifies this
      ensures Step(Snapshot(), out) == RollbackEnvironment(policy, old(Snapshot()), actor, key, r)
    {
      var replay := BeginAction(actor, key, r);
      if replay.Some? {
        return replay.value;
      }
      if r.stage != Pre && r.stage != ProdSim {
        out := RejectAction("rollback_environment_denied");
        return;
      }
      var current := Current(deployments, r.stage, None);
      if r.candidate >= |deployments| || deployments[r.candidate].stage != r.stage || current.None? {
        out := RejectAction("rollback_target_not_found");
        return;
      }
      if !Approves(policy, actor, r.evidence.actor, r.stage == ProdSim) {
        out := RejectAction("independent_approval_required");
        return;
      }
      var target := deployments[r.candidate];
      out := InstallDeployment(
        Deployment(r.stage, None, target.repository, target.ref, target.sha, None, None, Active, target.source, current,
                   actor, Some(r.evidence.actor)));
    }
  }
}
