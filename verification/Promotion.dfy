/** What whole histories of deployments, promotions, expiries and rollbacks keep. */
module Promotion {
  import opened Tables
  import opened Environments

  // ---- The invariant --------------------------------------------------------------------------

  /** A promoted row names a row one stage below with the same repository and SHA, and an approver. */
  ghost predicate Promoted(policy: Policy, rows: seq<Deployment>, d: Deployment) {
    && d.slot.None? && d.port.None?
    && d.source.Some? && d.source.value < |rows|
    && rows[d.source.value].stage == SourceStage(d.stage)
    && rows[d.source.value].repository == d.repository && rows[d.source.value].sha == d.sha
    && d.approver.Some? && Approves(policy, d.requester, d.approver.value, d.stage == ProdSim)
  }

  /** `d` may follow `rows`. */
  ghost predicate Follows(policy: Policy, rows: seq<Deployment>, d: Deployment) {
    && d.repository in policy.repositories
    && (d.rollbackOf.Some? ==> d.rollbackOf.value < |rows| && rows[d.rollbackOf.value].stage == d.stage)
    && match d.stage
       case Local =>
         d.slot.Some? && d.expiresAt.Some? && d.port.Some? && policy.portStart <= d.port.value <= policy.portEnd
       case Dev => d.slot.None? && d.port.None? && d.ref.Branch?
       case Pre => Promoted(policy, rows, d) && d.ref == Sha(d.sha)
       case ProdSim => Promoted(policy, rows, d) && d.ref.Tag? && SafeTag(d.ref.tag)
       case Live => false
  }

  predicate SameSlot(d: Deployment, e: Deployment) {
    d.stage == e.stage && d.slot == e.slot
  }

  ghost predicate OneCurrent(rows: seq<Deployment>) {
    forall i, j :: 0 <= i < j < |rows| && SameSlot(rows[i], rows[j]) && rows[i].state == Active ==>
      rows[j].state != Active
  }

  ghost predicate PortsDiffer(rows: seq<Deployment>) {
    forall i, j :: 0 <= i < j < |rows| && ActiveLocal(rows[i]) && ActiveLocal(rows[j]) ==> rows[i].port != rows[j].port
  }

  ghost predicate Lineage(policy: Policy, rows: seq<Deployment>) {
    forall i :: 0 <= i < |rows| ==> Follows(policy, rows[..i], rows[i])
  }

  ghost predicate Recorded(env: Env) {
    && (forall a, b :: 0 <= a < b < |env.actions| ==> env.actions[a].key != env.actions[b].key)
    && forall a :: 0 <= a < |env.actions| ==>
         match env.actions[a].progress
         case Requested => false
         case Applied(d, _) => d < |env.deployments|
         case Rejected(_) => true
  }

  ghost predicate Governed(policy: Policy, env: Env) {
    && Lineage(policy, env.deployments) && OneCurrent(env.deployments) && PortsDiffer(env.deployments)
    && Recorded(env)
  }

  /** Rows are only appended and only change state, and no state becomes active again. */
  ghost predicate Falls(a: seq<Deployment>, b: seq<Deployment>) {
    && |a| <= |b|
    && forall i :: 0 <= i < |a| ==>
         && b[i] == a[i].(state := b[i].state)
         && (b[i].state == Active ==> a[i].state == Active)
  }

  // ---- Rows -----------------------------------------------------------------------------------

  lemma FollowsKept(policy: Policy, a: seq<Deployment>, b: seq<Deployment>, d: Deployment, e: Deployment)
    requires Follows(policy, a, d) && |a| == |b| && e == d.(state := e.state)
    requires forall i :: 0 <= i < |a| ==> b[i] == a[i].(state := b[i].state)
    ensures Follows(policy, b, e)
  {
  }

  /** Changing states away from active keeps everything. */
  lemma FallKeepsRows(policy: Policy, a: seq<Deployment>, b: seq<Deployment>)
    requires Lineage(policy, a) && OneCurrent(a) && PortsDiffer(a) && Falls(a, b) && |a| == |b|
    ensures Lineage(policy, b) && OneCurrent(b) && PortsDiffer(b)
  {
    forall i | 0 <= i < |b| ensures Follows(policy, b[..i], b[i]) {
      FollowsKept(policy, a[..i], b[..i], a[i], b[i]);
    }
  }

  /** A row that follows, in a free slot and on a free port, can be appended. */
  lemma AppendKeepsRows(policy: Policy, rows: seq<Deployment>, d: Deployment)
    requires Lineage(policy, rows) && OneCurrent(rows) && PortsDiffer(rows) && Follows(policy, rows, d)
    requires Current(rows, d.stage, d.slot).None?
    requires d.stage == Local ==> d.port.Some? && d.port.value !in UsedPorts(rows)
    ensures Lineage(policy, rows + [d]) && OneCurrent(rows + [d]) && PortsDiffer(rows + [d])
  {
    var after := rows + [d];
    forall i | 0 <= i < |after| ensures Follows(policy, after[..i], after[i]) {
      assert after[..i] == if i < |rows| then rows[..i] else rows;
    }
    forall i | 0 <= i < |rows|
      ensures SameSlot(rows[i], d) ==> rows[i].state != Active
      ensures ActiveLocal(rows[i]) && d.stage == Local ==> rows[i].port != d.port
    {
      assert !InSlot(d.stage, d.slot)(rows[i]);
    }
  }

  /** Superseding the newest current row of a slot leaves the slot free. */
  lemma SupersedeFrees(rows: seq<Deployment>, stage: Stage, slot: Option<Id>, p: Id)
    requires OneCurrent(rows) && Current(rows, stage, slot) == Some(p)
    ensures Current(rows[p := rows[p].(state := Superseded)], stage, slot).None?
  {
    var after := rows[p := rows[p].(state := Superseded)];
    forall i | 0 <= i < |after| ensures !InSlot(stage, slot)(after[i]) {
      assert i < p ==> !(SameSlot(rows[i], rows[p]) && rows[i].state == Active);
    }
  }

  lemma ConcludeRecords(env: Env, begun: Env, rows: seq<Deployment>, progress: Progress)
    requires Recorded(env) && begun.actions != [] && begun.actions[..|begun.actions| - 1] == env.actions
    requires forall a :: 0 <= a < |env.actions| ==> env.actions[a].key != begun.actions[|begun.actions| - 1].key
    requires |env.deployments| <= |rows| && !progress.Requested?
    requires progress.Applied? ==> progress.deployment < |rows|
    ensures Recorded(Conclude(begun.(deployments := rows), progress))
  {
    var after := Conclude(begun.(deployments := rows), progress);
    assert forall a :: 0 <= a < |env.actions| ==> after.actions[a] == env.actions[a];
  }

  /** The new request's action sits on top of the old ones, under a key of its own. */
  ghost predicate Started(env: Env, begun: Env) {
    && begun.deployments == env.deployments && |begun.actions| == |env.actions| + 1
    && begun.actions[..|env.actions|] == env.actions
    && forall a :: 0 <= a < |env.actions| ==> env.actions[a].key != begun.actions[|env.actions|].key
  }

  lemma BeginStarts(env: Env, actor: string, key: string, request: Request, begun: Env)
    requires Begin(env, actor, key, request) == Fresh(begun)
    ensures Started(env, begun)
    ensures begun.actions[|env.actions|] == Action(actor, key, request, Requested)
  {
    forall a | 0 <= a < |env.actions| ensures env.actions[a].key != key {
      assert !KeyedBy(key)(env.actions[a]);
    }
  }

  /** What one call does to the deployments, and that its answer is on record. */
  ghost predicate Answered(policy: Policy, env: Env, begun: Env, step: Step) {
    && Governed(policy, step.env) && Falls(env.deployments, step.env.deployments)
    && |step.env.actions| == |begun.actions| == |env.actions| + 1
    && step.env.actions[..|env.actions|] == env.actions
    && step.env.actions[|env.actions|]
       == begun.actions[|env.actions|].(progress := step.env.actions[|env.actions|].progress)
    && match step.env.actions[|env.actions|].progress
       case Applied(d, _) => step.out == Done(d, false)
       case Rejected(code) => step.out == Refused(code)
       case Requested => false
  }

  lemma RejectAnswers(policy: Policy, env: Env, begun: Env, rows: seq<Deployment>, code: string)
    requires Governed(policy, env) && Started(env, begun)
    requires |rows| == |env.deployments| && Falls(env.deployments, rows)
    ensures Answered(policy, env, begun, Reject(begun.(deployments := rows), code))
  {
    FallKeepsRows(policy, env.deployments, rows);
    ConcludeRecords(env, begun, rows, Rejected(code));
  }

  lemma InstallAnswers(policy: Policy, env: Env, begun: Env, swept: seq<Deployment>, d: Deployment)
    requires Governed(policy, env) && Started(env, begun)
    requires |swept| == |env.deployments| && Falls(env.deployments, swept)
    requires Follows(policy, swept, d) && d.state == Active
    requires d.stage == Local ==>
               Current(swept, d.stage, d.slot).None? && d.port.Some? && d.port.value !in UsedPorts(swept)
    ensures Answered(policy, env, begun, Install(begun.(deployments := swept), d))
  {
    FallKeepsRows(policy, env.deployments, swept);
    InstallKeepsRows(policy, swept, d);
    var previous := Current(swept, d.stage, d.slot);
    ConcludeRecords(env, begun, Vacated(swept, previous) + [d], Applied(|swept|, previous));
  }

  lemma InstallKeepsRows(policy: Policy, rows: seq<Deployment>, d: Deployment)
    requires Lineage(policy, rows) && OneCurrent(rows) && PortsDiffer(rows) && Follows(policy, rows, d)
    requires d.stage == Local ==>
               Current(rows, d.stage, d.slot).None? && d.port.Some? && d.port.value !in UsedPorts(rows)
    ensures var after := Vacated(rows, Current(rows, d.stage, d.slot)) + [d];
            Lineage(policy, after) && OneCurrent(after) && PortsDiffer(after) && Falls(rows, after)
  {
    var previous := Current(rows, d.stage, d.slot);
    var vacated := Vacated(rows, previous);
    if previous.Some? {
      SupersedeFrees(rows, d.stage, d.slot, previous.value);
    }
    FallKeepsRows(policy, rows, vacated);
    FollowsKept(policy, rows, vacated, d, d);
    AppendKeepsRows(policy, vacated, d);
  }

  // ---- Calls ----------------------------------------------------------------------------------

  datatype Call =
    | DeployCall(tasks: nat, actor: string, key: string, request: Request, now: int)
    | ExpireCall(actor: string, key: string, deployment: Id)
    | PromoteCall(actor: string, key: string, request: Request)
    | RollbackCall(actor: string, key: string, request: Request)

  /** The shapes the request schemas admit. */
  predicate WellFormed(call: Call) {
    match call
    case DeployCall(_, _, _, r, _) => r.Deploy? && (r.stage == Local || r.stage == Dev)
    case ExpireCall(_, _, _) => true
    case PromoteCall(_, _, r) => r.Promote? && (r.target == Pre || r.target == ProdSim || r.target == Live)
    case RollbackCall(_, _, r) => r.Rollback?
  }

  function Serve(policy: Policy, env: Env, call: Call): Step
    requires WellFormed(call)
  {
    match call
    case DeployCall(tasks, actor, key, r, now) => DeployEnvironment(policy, tasks, env, actor, key, r, now)
    case ExpireCall(actor, key, d) => ExpireLocal(env, actor, key, d)
    case PromoteCall(actor, key, r) => PromoteEnvironment(policy, env, actor, key, r)
    case RollbackCall(actor, key, r) => RollbackEnvironment(policy, env, actor, key, r)
  }

  function RequestOf(call: Call): Request {
    match call
    case ExpireCall(_, _, d) => Expire(d)
    case DeployCall(_, _, _, r, _) => r
    case PromoteCall(_, _, r) => r
    case RollbackCall(_, _, r) => r
  }

  lemma SweepFalls(rows: seq<Deployment>, now: int)
    ensures |ExpireDue(rows, now)| == |rows| && Falls(rows, ExpireDue(rows, now))
  {
  }

  lemma PlaceAnswers(
    policy: Policy, env: Env, begun: Env, swept: seq<Deployment>, actor: string, r: Request, ttl: int, now: int,
    step: Step)
    requires Governed(policy, env) && Started(env, begun) && r.Deploy? && r.task.Some?
    requires r.repository in policy.repositories
    requires |swept| == |env.deployments| && Falls(env.deployments, swept)
    requires step == PlaceLocal(policy, begun.(deployments := swept), actor, r, ttl, now)
    ensures Answered(policy, env, begun, step)
  {
    var port := LowestFree(UsedPorts(swept), policy.portStart, policy.portEnd);
    if Current(swept, Local, r.task).Some? || port.None? {
      RejectAnswers(policy, env, begun, swept, step.out.code);
    } else {
      var row := Deployment(Local, r.task, r.repository, Branch(r.branch), r.sha, port, Some(now + 1000 * ttl), Active,
                            None, None, actor, None);
      InstallAnswers(policy, env, begun, swept, row);
    }
  }

  lemma LocalAnswers(
    policy: Policy, tasks: nat, env: Env, begun: Env, actor: string, r: Request, now: int, step: Step)
    requires Governed(policy, env) && Started(env, begun) && r.Deploy? && r.repository in policy.repositories
    requires step == DeployLocal(policy, tasks, begun, actor, r, now)
    ensures Answered(policy, env, begun, step)
  {
    var ttl := Ttl(policy, r);
    if r.task.None? || r.task.value >= tasks || ttl > policy.maxTtlSeconds {
      assert begun.(deployments := env.deployments) == begun;
      RejectAnswers(policy, env, begun, env.deployments, step.out.code);
    } else {
      SweepFalls(env.deployments, now);
      PlaceAnswers(policy, env, begun, ExpireDue(env.deployments, now), actor, r, ttl, now, step);
    }
  }

  lemma DeployAnswers(
    policy: Policy, tasks: nat, env: Env, begun: Env, actor: string, key: string, r: Request, now: int, step: Step)
    requires Governed(policy, env) && r.Deploy? && (r.stage == Local || r.stage == Dev)
    requires Begin(env, actor, key, r) == Fresh(begun) && Started(env, begun)
    requires step == DeployEnvironment(policy, tasks, env, actor, key, r, now)
    ensures Answered(policy, env, begun, step)
  {
    assert begun.(deployments := env.deployments) == begun;
    if r.stage == Local && r.repository in policy.repositories {
      LocalAnswers(policy, tasks, env, begun, actor, r, now, step);
    } else if step.out.Refused? {
      RejectAnswers(policy, env, begun, env.deployments, step.out.code);
    } else {
      InstallAnswers(policy, env, begun, env.deployments,
        Deployment(Dev, None, r.repository, Branch(r.branch), r.sha, None, None, Active, None, None, actor, None));
    }
  }

  lemma ExpireAnswers(policy: Policy, env: Env, begun: Env, actor: string, key: string, d: Id, step: Step)
    requires Governed(policy, env) && Begin(env, actor, key, Expire(d)) == Fresh(begun) && Started(env, begun)
    requires step == ExpireLocal(env, actor, key, d)
    ensures Answered(policy, env, begun, step)
  {
    if step.out.Refused? {
      RejectAnswers(policy, env, begun, env.deployments, step.out.code);
      assert begun.(deployments := env.deployments) == begun;
    } else {
      var rows := env.deployments[d := env.deployments[d].(state := Expired)];
      FallKeepsRows(policy, env.deployments, rows);
      ConcludeRecords(env, begun, rows, Applied(d, None));
    }
  }

  lemma PromoteAnswers(policy: Policy, env: Env, begun: Env, actor: string, key: string, r: Request, step: Step)
    requires Governed(policy, env) && r.Promote? && (r.target == Pre || r.target == ProdSim || r.target == Live)
    requires Begin(env, actor, key, r) == Fresh(begun) && Started(env, begun)
    requires step == PromoteEnvironment(policy, env, actor, key, r)
    ensures Answered(policy, env, begun, step)
  {
    assert begun.(deployments := env.deployments) == begun;
    if step.out.Refused? {
      RejectAnswers(policy, env, begun, env.deployments, step.out.code);
    } else {
      InstallAnswers(policy, env, begun, env.deployments,
        Deployment(r.target, None, r.repository, if r.target == Pre then Sha(r.sha) else Tag(r.tag.value), r.sha, None,
                   None, Active, Some(r.source), None, actor, Some(r.approval.value.actor)));
    }
  }

  lemma RollbackAnswers(policy: Policy, env: Env, begun: Env, actor: string, key: string, r: Request, step: Step)
    requires Governed(policy, env) && r.Rollback? && Begin(env, actor, key, r) == Fresh(begun) && Started(env, begun)
    requires step == RollbackEnvironment(policy, env, actor, key, r)
    ensures Answered(policy, env, begun, step)
  {
    assert begun.(deployments := env.deployments) == begun;
    if step.out.Refused? {
      RejectAnswers(policy, env, begun, env.deployments, step.out.code);
    } else {
      var target := env.deployments[r.candidate];
      assert Follows(policy, env.deployments[..r.candidate], target);
      InstallAnswers(policy, env, begun, env.deployments,
        Deployment(r.stage, None, target.repository, target.ref, target.sha, None, None, Active, target.source,
                   Current(env.deployments, r.stage, None), actor, Some(r.evidence.actor)));
    }
  }

  lemma FreshStep(policy: Policy, env: Env, begun: Env, call: Call, step: Step)
    requires Governed(policy, env) && WellFormed(call) && step == Serve(policy, env, call)
    requires Begin(env, call.actor, call.key, RequestOf(call)) == Fresh(begun) && Started(env, begun)
    ensures Answered(policy, env, begun, step)
  {
    if call.DeployCall? {
      DeployAnswers(policy, call.tasks, env, begun, call.actor, call.key, call.request, call.now, step);
    } else if call.ExpireCall? {
      ExpireAnswers(policy, env, begun, call.actor, call.key, call.deployment, step);
    } else if call.PromoteCall? {
      PromoteAnswers(policy, env, begun, call.actor, call.key, call.request, step);
    } else {
      RollbackAnswers(policy, env, begun, call.actor, call.key, call.request, step);
    }
  }

  lemma SeenStep(policy: Policy, env: Env, call: Call, out: Outcome)
    requires WellFormed(call) && Begin(env, call.actor, call.key, RequestOf(call)) == Seen(out)
    ensures Serve(policy, env, call) == Step(env, out)
  {
  }

  /** The answer under which a request is on record. */
  ghost predicate OnRecord(env: Env, call: Call, a: Id, out: Outcome) {
    && a < |env.actions| && env.actions[a].key == call.key && env.actions[a].requester == call.actor
    && env.actions[a].request == RequestOf(call)
    && match env.actions[a].progress
       case Applied(d, _) => out == Done(d, true)
       case Rejected(code) => out == Refused(code)
       case Requested => false
  }

  function Replayed(out: Outcome): Outcome {
    match out
    case Done(d, _) => Done(d, true)
    case Refused(code) => Refused(code)
  }

  /** A call repeats an earlier answer and changes nothing, or it is answered and its answer recorded. */
  lemma CallStep(policy: Policy, env: Env, call: Call, step: Step)
    requires Governed(policy, env) && WellFormed(call) && step == Serve(policy, env, call)
    ensures Governed(policy, step.env) && Falls(env.deployments, step.env.deployments)
    ensures |env.actions| <= |step.env.actions| && step.env.actions[..|env.actions|] == env.actions
    ensures step.env == env || OnRecord(step.env, call, |env.actions|, Replayed(step.out))
  {
    match Begin(env, call.actor, call.key, RequestOf(call))
    case Seen(out) => SeenStep(policy, env, call, out);
    case Fresh(begun) =>
      BeginStarts(env, call.actor, call.key, RequestOf(call), begun);
      FreshStep(policy, env, begun, call, step);
  }

  // ---- Histories ------------------------------------------------------------------------------

  function Replay(policy: Policy, start: Env, history: seq<Call>): Env
    requires forall c :: c in history ==> WellFormed(c)
  {
    if history == [] then start
    else Serve(policy, Replay(policy, start, history[..|history| - 1]), history[|history| - 1]).env
  }

  const NO_ENVIRONMENTS: Env := Env([], [])

  lemma NothingIsGoverned(policy: Policy)
    ensures Governed(policy, NO_ENVIRONMENTS)
  {
  }

  /** Every history keeps the invariant; states only fall, and recorded answers stay as they are. */
  lemma {:induction false} EveryHistoryIsGoverned(policy: Policy, start: Env, history: seq<Call>)
    requires Governed(policy, start) && forall c :: c in history ==> WellFormed(c)
    ensures var end := Replay(policy, start, history);
            && Governed(policy, end) && Falls(start.deployments, end.deployments)
            && |start.actions| <= |end.actions| && end.actions[..|start.actions|] == start.actions
  {
    if history != [] {
      var init := history[..|history| - 1];
      EveryHistoryIsGoverned(policy, start, init);
      var before := Replay(policy, start, init);
      CallStep(policy, before, history[|history| - 1], Serve(policy, before, history[|history| - 1]));
    }
  }

  /** A deployment that stopped being active never is again. */
  lemma NeverActiveAgain(policy: Policy, start: Env, history: seq<Call>, d: Id)
    requires Governed(policy, start) && forall c :: c in history ==> WellFormed(c)
    requires d < |start.deployments| && start.deployments[d].state != Active
    ensures d < |Replay(policy, start, history).deployments|
    ensures Replay(policy, start, history).deployments[d].state != Active
  {
    EveryHistoryIsGoverned(policy, start, history);
  }

  /**
    Whatever is in prod-sim passed through pre and dev: its source chain ends in dev, over rows of the
    same repository and SHA, and each promotion on the way had an approver other than its requester.
   */
  lemma ProdSimComesFromDev(policy: Policy, history: seq<Call>, env: Env, p: Id)
    returns (s: Id, d: Id)
    requires (forall c :: c in history ==> WellFormed(c)) && env == Replay(policy, NO_ENVIRONMENTS, history)
    requires p < |env.deployments| && env.deployments[p].stage == ProdSim
    ensures d < s < p
    ensures env.deployments[p].source == Some(s) && env.deployments[s].source == Some(d)
    ensures env.deployments[s].stage == Pre && env.deployments[d].stage == Dev
    ensures env.deployments[d].repository == env.deployments[s].repository == env.deployments[p].repository
    ensures env.deployments[d].sha == env.deployments[s].sha == env.deployments[p].sha
    ensures env.deployments[p].approver.Some? && env.deployments[p].approver.value != env.deployments[p].requester
    ensures env.deployments[s].approver.Some? && env.deployments[s].approver.value != env.deployments[s].requester
    ensures env.deployments[p].approver.value in policy.operators
  {
    NothingIsGoverned(policy);
    EveryHistoryIsGoverned(policy, NO_ENVIRONMENTS, history);
    var rows := env.deployments;
    assert Follows(policy, rows[..p], rows[p]);
    s := rows[p].source.value;
    assert Follows(policy, rows[..s], rows[s]);
    d := rows[s].source.value;
  }

  /** One active deployment per environment and slot, and active local deployments on ports of their own. */
  lemma SlotsAndPortsAreExclusive(policy: Policy, history: seq<Call>, env: Env, i: Id, j: Id)
    requires (forall c :: c in history ==> WellFormed(c)) && env == Replay(policy, NO_ENVIRONMENTS, history)
    requires i < j < |env.deployments| && env.deployments[i].state == Active && env.deployments[j].state == Active
    ensures !SameSlot(env.deployments[i], env.deployments[j])
    ensures env.deployments[i].stage == Local ==>
              && env.deployments[i].port.Some? && policy.portStart <= env.deployments[i].port.value <= policy.portEnd
              && (env.deployments[j].stage == Local ==> env.deployments[i].port != env.deployments[j].port)
  {
    NothingIsGoverned(policy);
    EveryHistoryIsGoverned(policy, NO_ENVIRONMENTS, history);
    assert Follows(policy, env.deployments[..i], env.deployments[i]);
  }

  /** The request is on record with this answer. */
  predicate Settled(env: Env, call: Call, out: Outcome) {
    Begin(env, call.actor, call.key, RequestOf(call)) == Seen(out)
  }

  /** Every answer is on record once it is given, refusals of a reused key included. */
  lemma AnswersSettle(policy: Policy, env: Env, call: Call, step: Step)
    requires Governed(policy, env) && WellFormed(call) && step == Serve(policy, env, call)
    ensures Governed(policy, step.env) && Settled(step.env, call, Replayed(step.out))
  {
    CallStep(policy, env, call, step);
    match Begin(env, call.actor, call.key, RequestOf(call))
    case Seen(out) => SeenStep(policy, env, call, out);
    case Fresh(begun) =>
      BeginStarts(env, call.actor, call.key, RequestOf(call), begun);
      FreshStep(policy, env, begun, call, step);
      RecordSettles(policy, step.env, call, |env.actions|, Replayed(step.out));
  }

  lemma RecordSettles(policy: Policy, env: Env, call: Call, a: Id, out: Outcome)
    requires Governed(policy, env) && OnRecord(env, call, a, out)
    ensures Settled(env, call, out)
  {
    assert KeyedBy(call.key)(env.actions[a]);
    assert Last(env.actions, KeyedBy(call.key)) == Some(a);
  }

  lemma SettledStays(policy: Policy, env: Env, later: Env, call: Call, out: Outcome)
    requires Governed(policy, env) && Governed(policy, later) && Settled(env, call, out)
    requires |env.deployments| <= |later.deployments| && |env.actions| <= |later.actions|
    requires later.actions[..|env.actions|] == env.actions
    ensures Settled(later, call, out)
  {
    var a := Last(env.actions, KeyedBy(call.key)).value;
    assert later.actions[a] == later.actions[..|env.actions|][a];
    assert KeyedBy(call.key)(later.actions[a]);
    assert Last(later.actions, KeyedBy(call.key)) == Some(a);
  }

  /** Repeating a request, at once or at any later time, repeats its answer and changes nothing. */
  lemma RepeatsReplay(policy: Policy, env: Env, call: Call, step: Step, history: seq<Call>, later: Env)
    requires Governed(policy, env) && WellFormed(call) && step == Serve(policy, env, call)
    requires forall c :: c in history ==> WellFormed(c)
    requires later == Replay(policy, step.env, history)
    ensures Serve(policy, later, call) == Step(later, Replayed(step.out))
  {
    AnswersSettle(policy, env, call, step);
    EveryHistoryIsGoverned(policy, step.env, history);
    SettledStays(policy, step.env, later, call, Replayed(step.out));
    SeenStep(policy, later, call, Replayed(step.out));
  }

  // ---- Ports ----------------------------------------------------------------------------------

  function LocalAt(now: int): Deployment -> bool {
    (d: Deployment) => ActiveLocal(d) && !DueAt(d, now)
  }

  function PoolSize(policy: Policy): nat {
    if policy.portEnd < policy.portStart then 0 else policy.portEnd - policy.portStart + 1
  }

  lemma {:induction false} PoolCount(used: set<int>, start: int, end: int)
    requires forall p :: p in used ==> start <= p <= end
    ensures |used| <= if end < start then 0 else end - start + 1
    ensures LowestFree(used, start, end).None? <==> |used| == if end < start then 0 else end - start + 1
    decreases end - start
  {
    if end < start {
      assert forall p :: p !in used;
    } else if start in used {
      PoolCount(used - {start}, start + 1, end);
      SkipUsed(used, start, start + 1, end);
    } else {
      PoolCount(used, start + 1, end);
    }
  }

  /** Ports below the range of the search do not matter. */
  lemma {:induction false} SkipUsed(used: set<int>, low: int, start: int, end: int)
    requires low < start
    ensures LowestFree(used - {low}, start, end) == LowestFree(used, start, end)
    decreases end - start
  {
    if start <= end && start in used {
      SkipUsed(used, low, start + 1, end);
    }
  }

  lemma NothingUsed()
    ensures UsedPorts([]) == {}
  {
  }

  lemma PortIsNew(rows: seq<Deployment>, port: int)
    requires forall i :: 0 <= i < |rows| && ActiveLocal(rows[i]) ==> rows[i].port != Some(port)
    ensures port !in UsedPorts(rows)
  {
  }

  /** Distinct ports: as many are used as there are active local deployments. */
  lemma {:induction false} UsedCount(rows: seq<Deployment>, now: int)
    requires PortsDiffer(rows) && forall i :: 0 <= i < |rows| && ActiveLocal(rows[i]) ==> rows[i].port.Some?
    ensures |UsedPorts(ExpireDue(rows, now))| == Count(rows, LocalAt(now))
  {
    hide UsedPorts;
    var swept := ExpireDue(rows, now);
    if rows != [] {
      var last := |rows| - 1;
      var init := ExpireDue(rows[..last], now);
      UsedCount(rows[..last], now);
      UsedAppend(init, swept[last]);
      assert swept == init + [swept[last]];
      if ActiveLocal(swept[last]) {
        forall i | 0 <= i < last && ActiveLocal(init[i]) ensures init[i].port != swept[last].port {
          assert rows[i].port != rows[last].port;
        }
        PortIsNew(init, swept[last].port.value);
      }
    } else {
      NothingUsed();
    }
  }

  lemma UsedAppend(rows: seq<Deployment>, d: Deployment)
    requires ActiveLocal(d) ==> d.port.Some?
    ensures UsedPorts(rows + [d]) == UsedPorts(rows) + (if ActiveLocal(d) then {d.port.value} else {})
  {
    var after := rows + [d];
    forall p | p in UsedPorts(rows) ensures p in UsedPorts(after) {
      var i :| 0 <= i < |rows| && ActiveLocal(rows[i]) && rows[i].port == Some(p);
      assert after[i] == rows[i];
    }
    if ActiveLocal(d) {
      assert after[|rows|] == d;
    }
  }

  /** The port found for a deployment of which the table is `rows`: the lowest that no unexpired one uses. */
  ghost predicate LowestOf(policy: Policy, rows: seq<Deployment>, now: int, port: int) {
    && policy.portStart <= port <= policy.portEnd
    && (forall d :: d in rows && LocalAt(now)(d) ==> d.port != Some(port))
    && forall p :: policy.portStart <= p < port ==> exists d :: d in rows && LocalAt(now)(d) && d.port == Some(p)
  }

  lemma PlaceExactly(policy: Policy, begun: Env, actor: string, r: Request, ttl: int, now: int, step: Step)
    requires Lineage(policy, begun.deployments) && PortsDiffer(begun.deployments)
    requires begun.actions != [] && r.Deploy? && Current(ExpireDue(begun.deployments, now), Local, r.task).None?
    requires step == PlaceLocal(policy, begun.(deployments := ExpireDue(begun.deployments, now)), actor, r, ttl, now)
    ensures Count(begun.deployments, LocalAt(now)) <= PoolSize(policy)
    ensures if Count(begun.deployments, LocalAt(now)) == PoolSize(policy)
            then step.out == Refused("local_port_pool_exhausted")
            else && step.out == Done(|begun.deployments|, false)
                 && |step.env.deployments| == |begun.deployments| + 1
                 && step.env.deployments[|begun.deployments|].port.Some?
                 && LowestOf(policy, begun.deployments, now, step.env.deployments[|begun.deployments|].port.value)
  {
    hide Lineage, PortsDiffer, Count, UsedPorts;
    var rows := begun.deployments;
    var used := UsedPorts(ExpireDue(rows, now));
    PoolPorts(policy, rows);
    UsedCount(rows, now);
    UsedAre(rows, now);
    PoolCount(used, policy.portStart, policy.portEnd);
  }

  /** A local deployment gets as far as the search for a port. */
  predicate Searches(policy: Policy, tasks: nat, env: Env, key: string, r: Request, now: int)
    requires r.Deploy?
  {
    && !Has(env.actions, KeyedBy(key)) && r.repository in policy.repositories
    && r.task.Some? && r.task.value < tasks && Ttl(policy, r) <= policy.maxTtlSeconds
    && Current(ExpireDue(env.deployments, now), Local, r.task).None?
  }

  /**
    A request under a new key is refused for want of a port exactly when it gets as far as the search and
    as many unexpired local deployments are active as the pool has ports. If fewer are, a request that gets
    that far is granted, on the lowest port that none of them uses.
   */
  lemma PortPoolExhaustedExactly(
    policy: Policy, tasks: nat, env: Env, actor: string, key: string, r: Request, now: int, step: Step)
    requires Governed(policy, env) && r.Deploy? && r.stage == Local && !Has(env.actions, KeyedBy(key))
    requires step == DeployEnvironment(policy, tasks, env, actor, key, r, now)
    ensures Count(env.deployments, LocalAt(now)) <= PoolSize(policy)
    ensures step.out == Refused("local_port_pool_exhausted") <==>
              Searches(policy, tasks, env, key, r, now) && Count(env.deployments, LocalAt(now)) == PoolSize(policy)
    ensures Searches(policy, tasks, env, key, r, now) && Count(env.deployments, LocalAt(now)) < PoolSize(policy) ==>
              && step.out == Done(|env.deployments|, false)
              && |step.env.deployments| == |env.deployments| + 1
              && step.env.deployments[|env.deployments|].port.Some?
              && LowestOf(policy, env.deployments, now, step.env.deployments[|env.deployments|].port.value)
  {
    PoolIsEnough(policy, env.deployments, now);
    if Searches(policy, tasks, env, key, r, now) {
      var begun := Begin(env, actor, key, r).env;
      PlaceExactly(policy, begun, actor, r, Ttl(policy, r), now, step);
    }
  }

  lemma PoolIsEnough(policy: Policy, rows: seq<Deployment>, now: int)
    requires Lineage(policy, rows) && PortsDiffer(rows)
    ensures Count(rows, LocalAt(now)) <= PoolSize(policy)
  {
    PoolPorts(policy, rows);
    UsedCount(rows, now);
    UsedAre(rows, now);
    PoolCount(UsedPorts(ExpireDue(rows, now)), policy.portStart, policy.portEnd);
  }

  lemma PoolPorts(policy: Policy, rows: seq<Deployment>)
    requires Lineage(policy, rows)
    ensures forall i :: 0 <= i < |rows| && ActiveLocal(rows[i]) ==>
              rows[i].port.Some? && policy.portStart <= rows[i].port.value <= policy.portEnd
  {
    forall i | 0 <= i < |rows| && ActiveLocal(rows[i])
      ensures rows[i].port.Some? && policy.portStart <= rows[i].port.value <= policy.portEnd
    {
      assert Follows(policy, rows[..i], rows[i]);
    }
  }

  lemma UsedAre(rows: seq<Deployment>, now: int)
    ensures forall p :: p in UsedPorts(ExpireDue(rows, now)) <==>
              exists d :: d in rows && LocalAt(now)(d) && d.port == Some(p)
  {
    var swept := ExpireDue(rows, now);
    forall p ensures p in UsedPorts(swept) <==> exists d :: d in rows && LocalAt(now)(d) && d.port == Some(p) {
      if p in UsedPorts(swept) {
        var i :| 0 <= i < |swept| && ActiveLocal(swept[i]) && swept[i].port == Some(p);
        assert rows[i] in rows && LocalAt(now)(rows[i]) && rows[i].port == Some(p);
      }
      if d :| d in rows && LocalAt(now)(d) && d.port == Some(p) {
        var i :| 0 <= i < |rows| && rows[i] == d;
        assert ActiveLocal(swept[i]) && swept[i].port == Some(p);
      }
    }
  }
}
