/** What a granted deployment, promotion, rollback or expiry puts in place, and what makes each be refused. */
module Releases {
  import opened Tables
  import opened Environments
  import opened Promotion

  // ---- Rows and actions -------------------------------------------------------------------------

  predicate NewKey(env: Env, key: string) {
    forall a :: 0 <= a < |env.actions| ==> env.actions[a].key != key
  }

  /** The row that is in place for a stage, or for a task on its own machine. */
  predicate InPlace(rows: seq<Deployment>, stage: Stage, slot: Option<Id>, c: Id) {
    c < |rows| && rows[c].stage == stage && rows[c].slot == slot && rows[c].state == Active
  }

  predicate Taken(rows: seq<Deployment>, stage: Stage, slot: Option<Id>) {
    exists c :: 0 <= c < |rows| && InPlace(rows, stage, slot, c)
  }

  /** One row was added, and what was in its place before is superseded; no other row changed. */
  ghost predicate Installed(rows: seq<Deployment>, after: seq<Deployment>, row: Deployment) {
    && |after| == |rows| + 1 && after[|rows|] == row && row.state == Active
    && forall i :: 0 <= i < |rows| ==>
         after[i] == if InPlace(rows, row.stage, row.slot, i) then rows[i].(state := Superseded) else rows[i]
  }

  /** The action is on record with its outcome, on top of the earlier ones. */
  ghost predicate OnFile(env: Env, after: Env, actor: string, key: string, r: Request, progress: Progress) {
    after.actions == env.actions + [Action(actor, key, r, progress)]
  }

  /** What the installation displaced, if anything. */
  predicate Displaced(rows: seq<Deployment>, row: Deployment, previous: Option<Id>) {
    if previous.Some? then InPlace(rows, row.stage, row.slot, previous.value) else !Taken(rows, row.stage, row.slot)
  }

  /** The call granted exactly this row. */
  ghost predicate Granted(
    env: Env, rows: seq<Deployment>, actor: string, key: string, r: Request, row: Deployment, step: Step)
  {
    && step.out == Done(|rows|, false) && Installed(rows, step.env.deployments, row)
    && exists previous ::
         Displaced(rows, row, previous) && OnFile(env, step.env, actor, key, r, Applied(|rows|, previous))
  }

  /** The call was refused: no row changed, and the refusal is on record. */
  ghost predicate Denied(
    env: Env, rows: seq<Deployment>, actor: string, key: string, r: Request, code: string, step: Step)
  {
    && step.out == Refused(code) && step.env.deployments == rows
    && OnFile(env, step.env, actor, key, r, Rejected(code))
  }

  lemma NewKeysBegin(env: Env, actor: string, key: string, r: Request)
    requires NewKey(env, key)
    ensures Begin(env, actor, key, r) == Fresh(env.(actions := env.actions + [Action(actor, key, r, Requested)]))
  {
    assert Last(env.actions, KeyedBy(key)).None?;
  }

  lemma OnlyOneInPlace(rows: seq<Deployment>, stage: Stage, slot: Option<Id>)
    requires OneCurrent(rows)
    ensures Current(rows, stage, slot).Some? ==>
              forall i: Id :: InPlace(rows, stage, slot, i) <==> i == Current(rows, stage, slot).value
    ensures Current(rows, stage, slot).Some? <==> Taken(rows, stage, slot)
  {
    var current := Current(rows, stage, slot);
    forall i: Id | InPlace(rows, stage, slot, i) ensures current == Some(i) {
      assert InSlot(stage, slot)(rows[i]);
      if current.value != i {
        assert SameSlot(rows[i], rows[current.value]);
      }
    }
    if current.Some? {
      assert InPlace(rows, stage, slot, current.value);
    }
  }

  lemma InstallGrants(
    env: Env, rows: seq<Deployment>, actor: string, key: string, r: Request, row: Deployment, step: Step)
    requires OneCurrent(rows) && row.state == Active
    requires step == Install(Env(rows, env.actions + [Action(actor, key, r, Requested)]), row)
    ensures Granted(env, rows, actor, key, r, row, step)
  {
    OnlyOneInPlace(rows, row.stage, row.slot);
    var previous := Current(rows, row.stage, row.slot);
    assert step.env.actions == env.actions + [Action(actor, key, r, Applied(|rows|, previous))];
    assert Displaced(rows, row, previous);
  }

  lemma RejectDenies(
    env: Env, rows: seq<Deployment>, actor: string, key: string, r: Request, code: string, step: Step)
    requires step == Reject(Env(rows, env.actions + [Action(actor, key, r, Requested)]), code)
    ensures Denied(env, rows, actor, key, r, code, step)
  {
    assert step.env.actions == env.actions + [Action(actor, key, r, Rejected(code))];
  }

  /** Somebody other than the requester who may approve, and for prod-sim an operator. */
  predicate Independent(policy: Policy, requester: string, approver: string, stage: Stage) {
    approver != requester && approver in policy.approvers && (stage == ProdSim ==> approver in policy.operators)
  }

  /** What a call under a key that is on record answers: its outcome, or a conflict, and no table changes. */
  lemma KnownKeysAreAnswered(policy: Policy, env: Env, call: Call, a: Id, step: Step)
    requires Governed(policy, env) && WellFormed(call) && step == Serve(policy, env, call)
    requires a < |env.actions| && env.actions[a].key == call.key
    ensures step.env == env
    ensures if env.actions[a].request != RequestOf(call) || env.actions[a].requester != call.actor
            then step.out == Refused("idempotency_conflict")
            else match env.actions[a].progress
              case Applied(d, _) => step.out == Done(d, true)
              case Rejected(code) => step.out == Refused(code)
              case Requested => false
  {
    hide Lineage, OneCurrent, PortsDiffer, Install, Reject, Current, DeployLocal;
    assert KeyedBy(call.key)(env.actions[a]);
    assert Last(env.actions, KeyedBy(call.key)) == Some(a);
  }

  // ---- Rollbacks ----------------------------------------------------------------------------------

  /** What is wrong with a rollback, if anything. */
  function RollbackFault(policy: Policy, rows: seq<Deployment>, actor: string, r: Request): Option<string>
    requires r.Rollback?
  {
    if !(r.stage == Pre || r.stage == ProdSim) then Some("rollback_environment_denied")
    else if !(r.candidate < |rows| && rows[r.candidate].stage == r.stage && Taken(rows, r.stage, None)) then
      Some("rollback_target_not_found")
    else if !Independent(policy, actor, r.evidence.actor, r.stage) then Some("independent_approval_required")
    else None
  }

  /** The row of a rollback: the candidate's version, in place of the one it names. */
  predicate RollsBack(rows: seq<Deployment>, actor: string, r: Request, row: Deployment)
    requires r.Rollback? && r.candidate < |rows|
  {
    var candidate := rows[r.candidate];
    && row.repository == candidate.repository && row.ref == candidate.ref && row.sha == candidate.sha
    && row.source == candidate.source
    && row.stage == r.stage && row.slot.None? && row.port.None? && row.expiresAt.None? && row.state == Active
    && row.rollbackOf.Some? && InPlace(rows, r.stage, None, row.rollbackOf.value)
    && row.requester == actor && row.approver == Some(r.evidence.actor) && r.evidence.actor != actor
  }

  /**
    A rollback under a new key is refused for the first thing wrong with it. Otherwise it puts the candidate's
    repository, ref, SHA and source back in place, instead of the row that was in place and that it names.
   */
  lemma RollbacksExactly(policy: Policy, env: Env, actor: string, key: string, r: Request, step: Step)
    returns (row: Deployment)
    requires Governed(policy, env) && r.Rollback? && NewKey(env, key)
    requires step == RollbackEnvironment(policy, env, actor, key, r)
    ensures var fault := RollbackFault(policy, env.deployments, actor, r);
            if fault.Some? then Denied(env, env.deployments, actor, key, r, fault.value, step)
            else && r.candidate < |env.deployments| && RollsBack(env.deployments, actor, r, row)
                 && Granted(env, env.deployments, actor, key, r, row, step)
  {
    hide Lineage, PortsDiffer, Recorded, Install, Reject, Current, Granted, Denied, InPlace, Taken;
    NewKeysBegin(env, actor, key, r);
    OnlyOneInPlace(env.deployments, r.stage, None);
    var fault, rows := RollbackFault(policy, env.deployments, actor, r), env.deployments;
    if fault.Some? {
      row := Deployment(Local, None, "", Branch(""), "", None, None, Active, None, None, "", None);
      RejectDenies(env, rows, actor, key, r, fault.value, step);
    } else {
      var target := rows[r.candidate];
      row := Deployment(r.stage, None, target.repository, target.ref, target.sha, None, None, Active, target.source,
                        Current(rows, r.stage, None), actor, Some(r.evidence.actor));
      InstallGrants(env, rows, actor, key, r, row, step);
    }
  }

  // ---- Promotions ---------------------------------------------------------------------------------

  predicate Plain(c: char) {
    '0' <= c <= '9' || 'A' <= c <= 'Z' || 'a' <= c <= 'z'
  }

  /** Up to 300 letters, digits, dots, underscores, slashes and dashes, the first a letter or digit. */
  predicate WellTagged(tag: Option<string>) {
    && tag.Some? && 1 <= |tag.value| <= 300 && Plain(tag.value[0])
    && forall c :: c in tag.value ==> Plain(c) || c == '.' || c == '_' || c == '/' || c == '-'
  }

  lemma TagsAreChecked(tag: string)
    ensures SafeTag(tag) <==> WellTagged(Some(tag))
  {
    if SafeTag(tag) {
      forall c | c in tag ensures Plain(c) || c == '.' || c == '_' || c == '/' || c == '-' {
        var i :| 0 <= i < |tag| && tag[i] == c;
        assert i == 0 || i > 0;
      }
    } else if WellTagged(Some(tag)) {
      forall i | 0 < i < |tag| ensures AlphaNumeric(tag[i]) || tag[i] in {'.', '_', '/', '-'} {
        assert tag[i] in tag;
      }
    }
  }

  function PromotionFault(policy: Policy, rows: seq<Deployment>, actor: string, r: Request): Option<string>
    requires r.Promote?
  {
    if r.target != Pre && r.target != ProdSim then Some("live_environment_denied")
    else if !(&& r.source < |rows| && rows[r.source].state == Active
              && rows[r.source].stage == (if r.target == Pre then Dev else Pre))
    then Some("invalid_promotion_source")
    else if !(&& r.repository in policy.repositories
              && rows[r.source].repository == r.repository && rows[r.source].sha == r.sha)
    then Some("immutable_ref_mismatch")
    else if !(r.approval.Some? && Independent(policy, actor, r.approval.value.actor, r.target)) then
      Some("independent_approval_required")
    else if r.target == Pre && r.tag.Some? then Some("pre_tag_denied")
    else if r.target == ProdSim && !WellTagged(r.tag) then Some("immutable_tag_required")
    else None
  }

  /** The row of a promotion: the source's version one stage up, under its SHA in pre and its tag in prod-sim. */
  predicate MovesUp(rows: seq<Deployment>, actor: string, r: Request, row: Deployment)
    requires r.Promote? && r.source < |rows|
  {
    && row.source == Some(r.source) && row.repository == rows[r.source].repository && row.sha == rows[r.source].sha
    && row.stage == r.target && row.slot.None? && row.port.None? && row.expiresAt.None? && row.state == Active
    && (r.target == Pre ==> row.ref == Sha(rows[r.source].sha))
    && (r.target == ProdSim ==> r.tag.Some? && row.ref == Tag(r.tag.value))
    && row.rollbackOf.None? && row.requester == actor
    && r.approval.Some? && row.approver == Some(r.approval.value.actor) && r.approval.value.actor != actor
  }

  /** A promotion under a new key is refused for the first thing wrong with it, or puts its source one stage up. */
  lemma PromotionsExactly(policy: Policy, env: Env, actor: string, key: string, r: Request, step: Step)
    returns (row: Deployment)
    requires Governed(policy, env) && NewKey(env, key)
    requires r.Promote? && (r.target == Pre || r.target == ProdSim || r.target == Live)
    requires step == PromoteEnvironment(policy, env, actor, key, r)
    ensures var fault := PromotionFault(policy, env.deployments, actor, r);
            if fault.Some? then Denied(env, env.deployments, actor, key, r, fault.value, step)
            else && r.source < |env.deployments| && MovesUp(env.deployments, actor, r, row)
                 && Granted(env, env.deployments, actor, key, r, row, step)
  {
    hide Lineage, PortsDiffer, Recorded, Install, Reject, Current, Granted, Denied, SafeTag, WellTagged;
    NewKeysBegin(env, actor, key, r);
    WithoutTag();
    if r.tag.Some? {
      TagsAreChecked(r.tag.value);
    }
    var fault, rows := PromotionFault(policy, env.deployments, actor, r), env.deployments;
    if fault.Some? {
      row := Deployment(Local, None, "", Branch(""), "", None, None, Active, None, None, "", None);
      RejectDenies(env, rows, actor, key, r, fault.value, step);
    } else {
      TaggedIsTag(r);
      row := Deployment(r.target, None, r.repository, if r.target == Pre then Sha(r.sha) else Tag(r.tag.value), r.sha,
                        None, None, Active, Some(r.source), None, actor, Some(r.approval.value.actor));
      InstallGrants(env, rows, actor, key, r, row, step);
    }
  }

  lemma WithoutTag()
    ensures !WellTagged(None)
  {
  }

  lemma TaggedIsTag(r: Request)
    requires r.Promote?
    ensures WellTagged(r.tag) ==> r.tag.Some?
  {
  }

  // ---- Deployments --------------------------------------------------------------------------------

  function DevFault(policy: Policy, actor: string, r: Request): Option<string>
    requires r.Deploy?
  {
    if r.repository !in policy.repositories then Some("repository_not_allowed")
    else if actor in policy.developers then Some("developer_scope_denied")
    else if r.task.Some? || r.ttlSeconds.Some? then Some("dev_local_fields_denied")
    else None
  }

  /** A deployment to dev under a new key puts its branch in place, unless the requester may only deploy locally. */
  lemma DevDeploysExactly(
    policy: Policy, tasks: nat, env: Env, actor: string, key: string, r: Request, now: int, step: Step)
    requires Governed(policy, env) && NewKey(env, key) && r.Deploy? && r.stage == Dev
    requires step == DeployEnvironment(policy, tasks, env, actor, key, r, now)
    ensures match DevFault(policy, actor, r)
            case Some(code) => Denied(env, env.deployments, actor, key, r, code, step)
            case None =>
              Granted(env, env.deployments, actor, key, r,
                Deployment(Dev, None, r.repository, Branch(r.branch), r.sha, None, None, Active, None, None, actor,
                           None),
                step)
  {
    hide Lineage, PortsDiffer, Recorded, Install, Reject, Current, Granted, Denied;
    NewKeysBegin(env, actor, key, r);
    match DevFault(policy, actor, r)
    case Some(code) => RejectDenies(env, env.deployments, actor, key, r, code, step);
    case None =>
      InstallGrants(env, env.deployments, actor, key, r,
        Deployment(Dev, None, r.repository, Branch(r.branch), r.sha, None, None, Active, None, None, actor, None),
        step);
  }

  /** Local deployments past their time are expired; every other row is as it was. */
  predicate SweptAt(rows: seq<Deployment>, swept: seq<Deployment>, now: int) {
    && |swept| == |rows|
    && forall i :: 0 <= i < |rows| ==>
         swept[i] == if && rows[i].stage == Local && rows[i].state == Active
                        && rows[i].expiresAt.Some? && rows[i].expiresAt.value <= now
                     then rows[i].(state := Expired) else rows[i]
  }

  /** How long a local deployment lives: as asked for, or by default. */
  predicate Lives(policy: Policy, r: Request, ttl: int)
    requires r.Deploy?
  {
    if r.ttlSeconds.None? || r.ttlSeconds.value == 0 then ttl == policy.defaultTtlSeconds
    else ttl == r.ttlSeconds.value
  }

  /** What is wrong with a local deployment before any row is looked at. */
  function LocalFault(policy: Policy, tasks: nat, r: Request, ttl: int): Option<string>
    requires r.Deploy?
  {
    if r.repository !in policy.repositories then Some("repository_not_allowed")
    else if r.task.None? || r.task.value >= tasks then Some("local_task_required")
    else if ttl > policy.maxTtlSeconds then Some("local_ttl_exceeded")
    else None
  }

  /** The lowest port of the pool that no deployment in place uses. */
  ghost predicate TakesPort(policy: Policy, rows: seq<Deployment>, port: int) {
    && policy.portStart <= port <= policy.portEnd && !OnPort(rows, port)
    && forall p :: policy.portStart <= p < port ==> OnPort(rows, p)
  }

  predicate OnPort(rows: seq<Deployment>, port: int) {
    exists i :: 0 <= i < |rows| && rows[i].stage == Local && rows[i].state == Active && rows[i].port == Some(port)
  }

  ghost predicate PoolUsedUp(policy: Policy, rows: seq<Deployment>) {
    forall p :: policy.portStart <= p <= policy.portEnd ==> OnPort(rows, p)
  }

  lemma PortsUsed(rows: seq<Deployment>)
    ensures forall p :: p in UsedPorts(rows) <==> OnPort(rows, p)
  {
    forall p ensures p in UsedPorts(rows) <==> OnPort(rows, p) {
      if OnPort(rows, p) {
        var i :| 0 <= i < |rows| && rows[i].stage == Local && rows[i].state == Active && rows[i].port == Some(p);
        assert ActiveLocal(rows[i]) && rows[i].port.value == p;
      }
    }
  }

  lemma SweptIsDue(rows: seq<Deployment>, now: int)
    ensures SweptAt(rows, ExpireDue(rows, now), now)
  {
  }

  lemma SweepKeepsOne(policy: Policy, rows: seq<Deployment>, now: int)
    requires Lineage(policy, rows) && OneCurrent(rows) && PortsDiffer(rows)
    ensures OneCurrent(ExpireDue(rows, now))
  {
    SweepFalls(rows, now);
    FallKeepsRows(policy, rows, ExpireDue(rows, now));
  }

  /**
    A local deployment under a new key that is in order expires those past their time. Then it is refused if its
    task still has one or no port is free, and else it is put in place for its task, on the lowest free port.
   */
  lemma LocalDeploysExactly(
    policy: Policy, tasks: nat, env: Env, actor: string, key: string, r: Request, now: int, step: Step)
    returns (swept: seq<Deployment>, ttl: int, port: int)
    requires Governed(policy, env) && NewKey(env, key) && r.Deploy? && r.stage == Local
    requires step == DeployEnvironment(policy, tasks, env, actor, key, r, now)
    ensures SweptAt(env.deployments, swept, now) && Lives(policy, r, ttl)
    ensures match LocalFault(policy, tasks, r, ttl)
            case Some(code) => Denied(env, env.deployments, actor, key, r, code, step)
            case None =>
              if Taken(swept, Local, r.task) then Denied(env, swept, actor, key, r, "local_already_active", step)
              else if PoolUsedUp(policy, swept) then
                Denied(env, swept, actor, key, r, "local_port_pool_exhausted", step)
              else
                && TakesPort(policy, swept, port)
                && Granted(env, swept, actor, key, r,
                     Deployment(Local, r.task, r.repository, Branch(r.branch), r.sha, Some(port),
                                Some(now + 1000 * ttl), Active, None, None, actor, None), step)
  {
    hide Recorded, Install, Reject, Granted, Denied, LowestFree, UsedPorts, ExpireDue, Current, OnPort;
    hide Lineage, PortsDiffer, OneCurrent;
    NewKeysBegin(env, actor, key, r);
    ttl, swept, port := Ttl(policy, r), ExpireDue(env.deployments, now), 0;
    SweptIsDue(env.deployments, now);
    SweepKeepsOne(policy, env.deployments, now);
    OnlyOneInPlace(swept, Local, r.task);
    PortsUsed(swept);
    match LocalFault(policy, tasks, r, ttl)
    case Some(code) => RejectDenies(env, env.deployments, actor, key, r, code, step);
    case None =>
      var free := LowestFree(UsedPorts(swept), policy.portStart, policy.portEnd);
      if Taken(swept, Local, r.task) {
        RejectDenies(env, swept, actor, key, r, "local_already_active", step);
      } else if free.None? {
        RejectDenies(env, swept, actor, key, r, "local_port_pool_exhausted", step);
      } else {
        port := free.value;
        assert !OnPort(swept, port);
        InstallGrants(env, swept, actor, key, r,
          Deployment(Local, r.task, r.repository, Branch(r.branch), r.sha, Some(port), Some(now + 1000 * ttl), Active,
                     None, None, actor, None), step);
      }
  }

  // ---- Expiry -------------------------------------------------------------------------------------

  /** An expiry under a new key takes one existing local deployment out of place, whatever its state. */
  lemma ExpiriesExactly(env: Env, actor: string, key: string, d: Id, step: Step)
    requires NewKey(env, key) && step == ExpireLocal(env, actor, key, d)
    ensures if d < |env.deployments| && env.deployments[d].stage == Local then
              && step.out == Done(d, false)
              && step.env.deployments == env.deployments[d := env.deployments[d].(state := Expired)]
              && OnFile(env, step.env, actor, key, Expire(d), Applied(d, None))
            else Denied(env, env.deployments, actor, key, Expire(d), "local_deployment_not_found", step)
  {
    hide Reject, Denied;
    NewKeysBegin(env, actor, key, Expire(d));
    if d < |env.deployments| && env.deployments[d].stage == Local {
      assert step.env.actions == env.actions + [Action(actor, key, Expire(d), Applied(d, None))];
    } else {
      RejectDenies(env, env.deployments, actor, key, Expire(d), "local_deployment_not_found", step);
    }
  }
}
