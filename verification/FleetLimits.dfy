/** When the fleet stays within the policy's limits: exactly while every agent finds room as it is enlisted. */
module FleetLimits {
  import opened Tables
  import opened AgentRequests
  import opened AgentAudit
  import opened Fleet

  ghost predicate WithinLimits(policy: Policy, agents: seq<Agent>) {
    && Count(agents, Managed()) <= policy.maxActive
    && forall role :: role in policy.roleLimits ==> Count(agents, ManagedAs(role)) <= policy.roleLimits[role]
  }

  // ---- One agent ------------------------------------------------------------------------------

  function Enlisted(payload: Payload): Agent {
    Agent(payload.slug, payload.role, true, true, None)
  }

  /** Whether the row that enlisting takes over, if there is one, counted already. */
  function Replaced(agents: seq<Agent>, slug: string, p: Agent -> bool): nat {
    match Last(agents, WithSlug(slug))
    case Some(a) => if p(agents[a]) then 1 else 0
    case None => 0
  }

  lemma ActivateCounts(agents: seq<Agent>, payload: Payload, p: Agent -> bool)
    ensures Count(Activate(agents, payload), p) + Replaced(agents, payload.slug, p) ==
            Count(agents, p) + (if p(Enlisted(payload)) then 1 else 0)
  {
    match Last(agents, WithSlug(payload.slug))
    case Some(a) => CountUpdate(agents, a, Enlisted(payload), p);
    case None => CountAppend(agents, Enlisted(payload), p);
  }

  /** There is room for the agent, given the row it takes over. */
  predicate RoomFor(policy: Policy, agents: seq<Agent>, payload: Payload) {
    && Count(agents, Managed()) - Replaced(agents, payload.slug, Managed()) < policy.maxActive
    && (payload.role in policy.roleLimits ==>
          Count(agents, ManagedAs(payload.role)) - Replaced(agents, payload.slug, ManagedAs(payload.role))
          < policy.roleLimits[payload.role])
  }

  /** Enlisting an agent keeps the limits exactly when there is room for it. */
  lemma EnlistingKeepsLimitsExactly(policy: Policy, agents: seq<Agent>, payload: Payload)
    requires WithinLimits(policy, agents)
    ensures WithinLimits(policy, Activate(agents, payload)) <==> RoomFor(policy, agents, payload)
  {
    var after := Activate(agents, payload);
    ActivateCounts(agents, payload, Managed());
    ActivateCounts(agents, payload, ManagedAs(payload.role));
    forall role | role in policy.roleLimits && role != payload.role
      ensures Count(after, ManagedAs(role)) <= policy.roleLimits[role]
    {
      ActivateCounts(agents, payload, ManagedAs(role));
    }
  }

  // ---- Histories ------------------------------------------------------------------------------

  ghost predicate AlwaysWithin(policy: Policy, start: World, history: seq<Event>) {
    && WithinLimits(policy, Replay(policy, start, history).reg.agents)
    && (history != [] ==> AlwaysWithin(policy, start, history[..|history| - 1]))
  }

  /** An agent that is enlisted finds room. */
  predicate FindsRoom(policy: Policy, w: World, e: Event) {
    Joins(w, e) ==> RoomFor(policy, w.reg.agents, w.reg.asks[w.jobs[e.job].request].payload)
  }

  predicate AlwaysRoom(policy: Policy, start: World, history: seq<Event>) {
    history == [] ||
    var init := history[..|history| - 1];
    AlwaysRoom(policy, start, init) && FindsRoom(policy, Replay(policy, start, init), history[|history| - 1])
  }

  lemma {:induction false} ModestCounts(a: seq<Agent>, b: seq<Agent>, p: Agent -> bool)
    requires |a| == |b| && forall i :: 0 <= i < |a| && p(b[i]) ==> p(a[i])
    ensures Count(b, p) <= Count(a, p)
  {
    if a != [] {
      ModestCounts(a[..|a| - 1], b[..|b| - 1], p);
    }
  }

  lemma ModestWithin(policy: Policy, a: Registry, b: Registry)
    requires Modest(a, b) && WithinLimits(policy, a.agents)
    ensures WithinLimits(policy, b.agents)
  {
    ModestCounts(a.agents, b.agents, Managed());
    forall role | role in policy.roleLimits ensures Count(b.agents, ManagedAs(role)) <= policy.roleLimits[role] {
      ModestCounts(a.agents, b.agents, ManagedAs(role));
    }
  }

  /** Only enlisting adds agents. */
  lemma OthersAreModest(policy: Policy, w: World, e: Event, after: World)
    requires Orderly(w) && !Joins(w, e) && after == Next(policy, w, e)
    ensures after.reg.agents == w.reg.agents || Modest(w.reg, after.reg)
  {
    match e
    case ByHand(j, r, actor, key, error) =>
      BeginKeeps(w.reg, r, actor, key, error, BeginProvision(w.reg, r, actor, key, error));
    case Settle(j) =>
      if j in w.jobs && w.jobs[j].phase.Judged? {
        SettleKeepsOrderly(policy, w, j);
      }
    case Record(j, error) =>
      if j in w.jobs && w.jobs[j].phase.Cleared? {
        var job := w.jobs[j];
        BeginKeeps(w.reg, job.request, job.actor, job.key, error,
          BeginProvision(w.reg, job.request, job.actor, job.key, error));
      }
    case Join(j) =>
    case Judge(j, r) =>
    case Crash(j) =>
    case _ => ServiceStep(policy, w, e, after);
  }

  lemma StepKeepsLimitsExactly(policy: Policy, w: World, e: Event, after: World)
    requires Orderly(w) && WithinLimits(policy, w.reg.agents) && after == Next(policy, w, e)
    ensures WithinLimits(policy, after.reg.agents) <==> FindsRoom(policy, w, e)
  {
    hide Orderly;
    if Joins(w, e) {
      EnlistingKeepsLimitsExactly(policy, w.reg.agents, w.reg.asks[w.jobs[e.job].request].payload);
    } else {
      OthersAreModest(policy, w, e, after);
      if after.reg.agents != w.reg.agents {
        ModestWithin(policy, w.reg, after.reg);
      }
    }
  }

  /**
    Whoever provisions and whatever comes between: the fleet and every role stay within their limits
    throughout a history if and only if each agent finds room at the moment it is enlisted.
   */
  lemma {:induction false} LimitsHoldExactly(policy: Policy, start: World, history: seq<Event>)
    requires Orderly(start) && WithinLimits(policy, start.reg.agents)
    ensures AlwaysWithin(policy, start, history) <==> AlwaysRoom(policy, start, history)
  {
    hide Orderly, Next, WithinLimits, FindsRoom;
    if history != [] {
      var init, last := history[..|history| - 1], history[|history| - 1];
      LimitsHoldExactly(policy, start, init);
      EveryWorldIsOrderly(policy, start, init);
      var before := Replay(policy, start, init);
      if AlwaysWithin(policy, start, init) {
        WithinNow(policy, start, init);
        StepKeepsLimitsExactly(policy, before, last, Replay(policy, start, history));
      }
    }
  }

  lemma WithinNow(policy: Policy, start: World, history: seq<Event>)
    requires AlwaysWithin(policy, start, history)
    ensures WithinLimits(policy, Replay(policy, start, history).reg.agents)
  {
  }

  // ---- Without interruption ---------------------------------------------------------------------

  /** What evaluation has found out about the fleet. */
  predicate Fits(policy: Policy, agents: seq<Agent>, payload: Payload) {
    && payload.role in policy.roleLimits && !Has(agents, ManagedSlug(payload.slug))
    && Count(agents, Managed()) < policy.maxActive
    && Count(agents, ManagedAs(payload.role)) < policy.roleLimits[payload.role]
  }

  lemma FitsHasRoom(policy: Policy, agents: seq<Agent>, payload: Payload)
    requires Fits(policy, agents, payload)
    ensures RoomFor(policy, agents, payload)
  {
  }

  /** A coordinator whose evaluation no enlisting has overtaken can still rely on it. */
  ghost predicate Reliable(policy: Policy, w: World) {
    forall j :: j in w.jobs ==>
      && !w.jobs[j].byHand && w.jobs[j].request < |w.reg.asks| && w.jobs[j].seen <= w.enlisted
      && (w.jobs[j].phase != Judged(false) && w.jobs[j].seen == w.enlisted ==>
            Fits(policy, w.reg.agents, w.reg.asks[w.jobs[j].request].payload))
  }

  /** No agent was enlisted between the evaluation and this enlisting of its own. */
  predicate Uninterrupted(w: World, e: Event) {
    Joins(w, e) ==> w.jobs[e.job].seen == w.enlisted
  }

  predicate AlwaysUninterrupted(policy: Policy, start: World, history: seq<Event>) {
    history == [] ||
    var init := history[..|history| - 1];
    && AlwaysUninterrupted(policy, start, init)
    && Uninterrupted(Replay(policy, start, init), history[|history| - 1])
  }

  predicate PolicyDriven(history: seq<Event>) {
    forall e :: e in history ==> !e.ByHand?
  }

  lemma ModestFits(policy: Policy, a: Registry, b: Registry, payload: Payload)
    requires Modest(a, b) && Fits(policy, a.agents, payload)
    ensures Fits(policy, b.agents, payload)
  {
    ModestCounts(a.agents, b.agents, Managed());
    ModestCounts(a.agents, b.agents, ManagedAs(payload.role));
    forall i | 0 <= i < |b.agents| ensures !ManagedSlug(payload.slug)(b.agents[i]) {
      assert !ManagedSlug(payload.slug)(a.agents[i]);
    }
  }

  /** As long as no agent joins, what fitted fits. */
  lemma FitStays(policy: Policy, w: World, e: Event, after: World, r: Id)
    requires Orderly(w) && !Joins(w, e) && after == Next(policy, w, e) && r < |w.reg.asks|
    requires Fits(policy, w.reg.agents, w.reg.asks[r].payload)
    ensures r < |after.reg.asks| && Fits(policy, after.reg.agents, after.reg.asks[r].payload)
  {
    hide Orderly, Next, Fits;
    NextGrows(policy, w, e, after);
    OthersAreModest(policy, w, e, after);
    if after.reg.agents != w.reg.agents {
      ModestFits(policy, w.reg, after.reg, w.reg.asks[r].payload);
    }
  }

  /** A job of the next world was there before, at the same request, or has just been evaluated. */
  lemma JobsContinue(policy: Policy, w: World, e: Event, after: World, j: nat)
    requires Orderly(w) && !e.ByHand? && after == Next(policy, w, e) && j in after.jobs
    requires forall k :: k in w.jobs ==> !w.jobs[k].byHand
    ensures !after.jobs[j].byHand
    ensures if j in w.jobs
            then && after.jobs[j].request == w.jobs[j].request && after.jobs[j].seen == w.jobs[j].seen
                 && (after.jobs[j].phase != Judged(false) ==> w.jobs[j].phase != Judged(false))
            else && after.reg == w.reg && after.enlisted == w.enlisted && after.jobs[j].seen == w.enlisted
                 && after.jobs[j].request < |w.reg.asks|
                 && (after.jobs[j].phase != Judged(false) ==>
                       Evaluate(policy, w.reg, w.reg.asks[after.jobs[j].request]))
    ensures after.enlisted == if Joins(w, e) then w.enlisted + 1 else w.enlisted
  {
    hide Sound, Evaluate, DecideRequest, RecordApplication, RollbackAgent;
  }

  lemma StepStaysReliable(policy: Policy, w: World, e: Event, after: World)
    requires Orderly(w) && Reliable(policy, w) && !e.ByHand? && after == Next(policy, w, e)
    ensures Reliable(policy, after)
  {
    NextGrows(policy, w, e, after);
    forall j | j in after.jobs
      ensures !after.jobs[j].byHand && after.jobs[j].request < |after.reg.asks| && after.jobs[j].seen <= after.enlisted
      ensures after.jobs[j].phase != Judged(false) && after.jobs[j].seen == after.enlisted ==>
                Fits(policy, after.reg.agents, after.reg.asks[after.jobs[j].request].payload)
    {
      JobStaysReliable(policy, w, e, after, j);
    }
  }

  lemma JobStaysReliable(policy: Policy, w: World, e: Event, after: World, j: nat)
    requires Orderly(w) && Reliable(policy, w) && !e.ByHand? && after == Next(policy, w, e) && j in after.jobs
    requires Grows(w.reg, after.reg)
    ensures !after.jobs[j].byHand && after.jobs[j].request < |after.reg.asks| && after.jobs[j].seen <= after.enlisted
    ensures after.jobs[j].phase != Judged(false) && after.jobs[j].seen == after.enlisted ==>
              Fits(policy, after.reg.agents, after.reg.asks[after.jobs[j].request].payload)
  {
    hide Orderly, Next;
    JobsContinue(policy, w, e, after, j);
    if j in w.jobs && after.jobs[j].phase != Judged(false) && after.jobs[j].seen == after.enlisted {
      FitStays(policy, w, e, after, w.jobs[j].request);
    }
  }

  lemma {:induction false} EveryWorldIsReliable(policy: Policy, start: World, history: seq<Event>)
    requires Orderly(start) && Reliable(policy, start) && PolicyDriven(history)
    ensures Reliable(policy, Replay(policy, start, history))
  {
    hide Orderly, Next, Reliable;
    if history != [] {
      var init, last := history[..|history| - 1], history[|history| - 1];
      assert last in history && forall e :: e in init ==> e in history;
      EveryWorldIsReliable(policy, start, init);
      EveryWorldIsOrderly(policy, start, init);
      StepStaysReliable(policy, Replay(policy, start, init), last, Replay(policy, start, history));
    }
  }

  lemma ReliableFindsRoom(policy: Policy, w: World, e: Event)
    requires Reliable(policy, w) && Uninterrupted(w, e)
    ensures FindsRoom(policy, w, e)
  {
    if Joins(w, e) {
      FitsHasRoom(policy, w.reg.agents, w.reg.asks[w.jobs[e.job].request].payload);
    }
  }

  lemma {:induction false} UninterruptedFindsRoom(policy: Policy, start: World, history: seq<Event>)
    requires Orderly(start) && Reliable(policy, start)
    requires PolicyDriven(history) && AlwaysUninterrupted(policy, start, history)
    ensures AlwaysRoom(policy, start, history)
  {
    hide Orderly, Next, Reliable, FindsRoom, Uninterrupted;
    if history != [] {
      var init, last := history[..|history| - 1], history[|history| - 1];
      assert forall e :: e in init ==> e in history;
      UninterruptedFindsRoom(policy, start, init);
      EveryWorldIsReliable(policy, start, init);
      ReliableFindsRoom(policy, Replay(policy, start, init), last);
    }
  }

  /**
    When only the policy provisions, and no agent is enlisted between an evaluation and the enlisting of its
    own agent, the fleet and every role stay within their limits, whatever else happens and whatever crashes.
   */
  lemma FleetStaysWithinLimits(policy: Policy, history: seq<Event>)
    requires PolicyDriven(history) && AlwaysUninterrupted(policy, EMPTY_WORLD, history)
    ensures AlwaysWithin(policy, EMPTY_WORLD, history)
  {
    EmptyIsOrderly();
    UninterruptedFindsRoom(policy, EMPTY_WORLD, history);
    LimitsHoldExactly(policy, EMPTY_WORLD, history);
  }

  // ---- Within the profiles ----------------------------------------------------------------------

  /** The payload is one that the policy's profiles contain, for a role that the policy knows. */
  predicate Vetted(policy: Policy, payload: Payload) {
    policy.contained(payload) && payload.role in policy.roleLimits
  }

  predicate Vouches(policy: Policy, reg: Registry, agent: Agent, r: Id) {
    && r < |reg.asks| && Vetted(policy, reg.asks[r].payload)
    && reg.asks[r].payload.slug == agent.slug && reg.asks[r].payload.role == agent.role
  }

  /** Every agent was asked for, and what was asked for was vetted. */
  ghost predicate AgentsVetted(policy: Policy, reg: Registry) {
    forall a :: 0 <= a < |reg.agents| ==> VouchedFor(policy, reg, reg.agents[a])
  }

  ghost predicate VouchedFor(policy: Policy, reg: Registry, agent: Agent) {
    exists r: Id :: Vouches(policy, reg, agent, r)
  }

  /** Whoever is about to enlist an agent has had its request evaluated. */
  ghost predicate JobsVetted(policy: Policy, w: World) {
    forall j :: j in w.jobs ==>
      && !w.jobs[j].byHand && w.jobs[j].request < |w.reg.asks|
      && (w.jobs[j].phase != Judged(false) ==> Vetted(policy, w.reg.asks[w.jobs[j].request].payload))
  }

  lemma EvaluationVets(policy: Policy, reg: Registry, ask: Ask)
    requires Evaluate(policy, reg, ask)
    ensures Vetted(policy, ask.payload)
  {
  }

  lemma JobsStayVetted(policy: Policy, w: World, e: Event, after: World)
    requires Orderly(w) && JobsVetted(policy, w) && !e.ByHand? && after == Next(policy, w, e)
    ensures JobsVetted(policy, after)
  {
    hide Orderly, Next, Evaluate, Vetted;
    NextGrows(policy, w, e, after);
    forall j | j in after.jobs
      ensures !after.jobs[j].byHand && after.jobs[j].request < |after.reg.asks|
      ensures after.jobs[j].phase != Judged(false) ==>
                Vetted(policy, after.reg.asks[after.jobs[j].request].payload)
    {
      JobsContinue(policy, w, e, after, j);
      if j !in w.jobs && after.jobs[j].phase != Judged(false) {
        EvaluationVets(policy, w.reg, w.reg.asks[after.jobs[j].request]);
      }
    }
  }

  lemma VouchersStay(policy: Policy, a: Registry, b: Registry, x: Agent, y: Agent)
    requires Grows(a, b) && x.slug == y.slug && x.role == y.role && VouchedFor(policy, a, x)
    ensures VouchedFor(policy, b, y)
  {
    var r: Id :| Vouches(policy, a, x, r);
    assert Vouches(policy, b, y, r);
  }

  lemma EnlistedAreVetted(policy: Policy, w: World, e: Event, after: World, a: Id)
    requires JobsVetted(policy, w) && AgentsVetted(policy, w.reg) && Joins(w, e) && after == Next(policy, w, e)
    requires Grows(w.reg, after.reg) && a < |after.reg.agents|
    ensures VouchedFor(policy, after.reg, after.reg.agents[a])
  {
    hide Vetted;
    var r := w.jobs[e.job].request;
    if after.reg.agents[a] == Enlisted(w.reg.asks[r].payload) {
      assert Vouches(policy, after.reg, after.reg.agents[a], r);
    } else {
      VouchersStay(policy, w.reg, after.reg, w.reg.agents[a], after.reg.agents[a]);
    }
  }

  lemma AgentsStayVetted(policy: Policy, w: World, e: Event, after: World)
    requires Orderly(w) && JobsVetted(policy, w) && AgentsVetted(policy, w.reg) && after == Next(policy, w, e)
    ensures AgentsVetted(policy, after.reg)
  {
    hide Orderly, Next, VouchedFor, JobsVetted;
    NextGrows(policy, w, e, after);
    forall a | 0 <= a < |after.reg.agents| ensures VouchedFor(policy, after.reg, after.reg.agents[a]) {
      if Joins(w, e) {
        EnlistedAreVetted(policy, w, e, after, a);
      } else {
        OthersAreModest(policy, w, e, after);
        VouchersStay(policy, w.reg, after.reg, w.reg.agents[a], after.reg.agents[a]);
      }
    }
  }

  lemma {:induction false} EveryWorldIsVetted(policy: Policy, history: seq<Event>)
    requires PolicyDriven(history)
    ensures var w := Replay(policy, EMPTY_WORLD, history); JobsVetted(policy, w) && AgentsVetted(policy, w.reg)
  {
    if history == [] {
    } else {
      hide Orderly, Next, JobsVetted, AgentsVetted;
      var init, last := history[..|history| - 1], history[|history| - 1];
      assert last in history && forall e :: e in init ==> e in history;
      EveryWorldIsVetted(policy, init);
      EmptyIsOrderly();
      EveryWorldIsOrderly(policy, EMPTY_WORLD, init);
      JobsStayVetted(policy, Replay(policy, EMPTY_WORLD, init), last, Replay(policy, EMPTY_WORLD, history));
      AgentsStayVetted(policy, Replay(policy, EMPTY_WORLD, init), last, Replay(policy, EMPTY_WORLD, history));
    }
  }

  /**
    When only the policy provisions, every agent of the fleet was asked for under its name and role by a request
    that the signed profile of the role contains, for a role that the policy limits.
   */
  lemma FleetStaysWithinProfiles(policy: Policy, history: seq<Event>, w: World, a: Id) returns (r: Id)
    requires PolicyDriven(history) && w == Replay(policy, EMPTY_WORLD, history) && a < |w.reg.agents|
    ensures r < |w.reg.asks| && w.reg.asks[r].payload.slug == w.reg.agents[a].slug
    ensures w.reg.asks[r].payload.role == w.reg.agents[a].role && w.reg.agents[a].role in policy.roleLimits
    ensures policy.contained(w.reg.asks[r].payload)
  {
    EveryWorldIsVetted(policy, history);
    assert VouchedFor(policy, w.reg, w.reg.agents[a]);
    r :| Vouches(policy, w.reg, w.reg.agents[a], r);
  }

  // ---- Interrupted ------------------------------------------------------------------------------

  /** What a step adds to, or takes from, the agents that `p` counts. */
  function Change(w: World, e: Event, p: Agent -> bool): int {
    if Joins(w, e) then
      var payload := w.reg.asks[w.jobs[e.job].request].payload;
      (if p(Enlisted(payload)) then 1 else 0) - Replaced(w.reg.agents, payload.slug, p)
    else if e.TakeBack? && e.request < |w.reg.asks| then
      var reg := RollbackAgent(w.reg, e.request, e.actor, e.key, e.reason).registry;
      match Last(w.reg.agents, WithSlug(w.reg.asks[e.request].payload.slug))
      case Some(a) =>
        if a < |reg.agents| then (if p(reg.agents[a]) then 1 else 0) - (if p(w.reg.agents[a]) then 1 else 0) else 0
      case None => 0
    else 0
  }

  /** Agents enlisted less agents taken back over a history. */
  function Growth(policy: Policy, start: World, history: seq<Event>, p: Agent -> bool): int {
    if history == [] then 0
    else
      var init := history[..|history| - 1];
      Growth(policy, start, init, p) + Change(Replay(policy, start, init), history[|history| - 1], p)
  }

  lemma TakeBackCounts(
    reg: Registry, r: Id, actor: string, key: string, reason: string, p: Agent -> bool, after: Registry)
    requires r < |reg.asks| && after == RollbackAgent(reg, r, actor, key, reason).registry
    ensures |after.agents| == |reg.agents|
    ensures match Last(reg.agents, WithSlug(reg.asks[r].payload.slug))
            case Some(a) => Count(after.agents, p) + (if p(reg.agents[a]) then 1 else 0) ==
                            Count(reg.agents, p) + (if p(after.agents[a]) then 1 else 0)
            case None => after == reg
  {
    match Last(reg.agents, WithSlug(reg.asks[r].payload.slug))
    case Some(a) => CountUpdate(reg.agents, a, reg.agents[a].(active := false, rollbackKey := Some(key)), p);
    case None =>
  }

  /** Steps other than these two leave the agents alone. */
  lemma OthersKeepAgents(policy: Policy, w: World, e: Event, after: World)
    requires Orderly(w) && !Joins(w, e) && after == Next(policy, w, e)
    requires e.TakeBack? ==> e.request >= |w.reg.asks|
    ensures after.reg.agents == w.reg.agents
  {
    match e
    case ByHand(j, r, actor, key, error) =>
      BeginKeeps(w.reg, r, actor, key, error, BeginProvision(w.reg, r, actor, key, error));
    case Settle(j) =>
    case Record(j, error) =>
      if j in w.jobs && w.jobs[j].phase.Cleared? {
        var job := w.jobs[j];
        BeginKeeps(w.reg, job.request, job.actor, job.key, error,
          BeginProvision(w.reg, job.request, job.actor, job.key, error));
      }
    case Join(j) =>
    case Judge(j, r) =>
    case Crash(j) =>
    case _ =>
  }

  lemma StepCounts(policy: Policy, w: World, e: Event, p: Agent -> bool, after: World)
    requires Orderly(w) && after == Next(policy, w, e)
    ensures Count(after.reg.agents, p) == Count(w.reg.agents, p) + Change(w, e, p)
  {
    if Joins(w, e) {
      ActivateCounts(w.reg.agents, w.reg.asks[w.jobs[e.job].request].payload, p);
    } else if e.TakeBack? && e.request < |w.reg.asks| {
      TakeBackCounts(w.reg, e.request, e.actor, e.key, e.reason, p, after.reg);
    } else {
      OthersKeepAgents(policy, w, e, after);
    }
  }

  lemma {:induction false} CountsAddUp(policy: Policy, start: World, history: seq<Event>, p: Agent -> bool)
    requires Orderly(start)
    ensures Count(Replay(policy, start, history).reg.agents, p) ==
            Count(start.reg.agents, p) + Growth(policy, start, history, p)
  {
    hide Orderly, Next, Change;
    if history != [] {
      var init, last := history[..|history| - 1], history[|history| - 1];
      CountsAddUp(policy, start, init, p);
      EveryWorldIsOrderly(policy, start, init);
      StepCounts(policy, Replay(policy, start, init), last, p, Replay(policy, start, history));
    }
  }

  /**
    An agent of a new name, evaluated at `start` and enlisted after `history`, finds room exactly when the
    fleet and its role have grown in between by less than the places that were left at its evaluation.
   */
  lemma RoomExactly(policy: Policy, start: World, history: seq<Event>, end: World, payload: Payload)
    requires Orderly(start) && end == Replay(policy, start, history)
    requires payload.role in policy.roleLimits && !Has(end.reg.agents, ManagedSlug(payload.slug))
    ensures RoomFor(policy, end.reg.agents, payload) <==>
              && Growth(policy, start, history, Managed()) < policy.maxActive - Count(start.reg.agents, Managed())
              && Growth(policy, start, history, ManagedAs(payload.role))
                 < policy.roleLimits[payload.role] - Count(start.reg.agents, ManagedAs(payload.role))
  {
    hide Orderly, Replay, Growth;
    CountsAddUp(policy, start, history, Managed());
    CountsAddUp(policy, start, history, ManagedAs(payload.role));
  }

  /** The agents of new names enlisted over a history. */
  function NewNames(policy: Policy, start: World, history: seq<Event>): nat {
    if history == [] then 0
    else
      var init, last := history[..|history| - 1], history[|history| - 1];
      var before := Replay(policy, start, init);
      NewNames(policy, start, init)
      + (if Joins(before, last)
            && Replaced(before.reg.agents, before.reg.asks[before.jobs[last.job].request].payload.slug, Managed()) == 0
         then 1 else 0)
  }

  lemma {:induction false} NamesAreGrowth(policy: Policy, start: World, history: seq<Event>)
    requires forall e :: e in history ==> !e.TakeBack?
    ensures Growth(policy, start, history, Managed()) == NewNames(policy, start, history)
  {
    hide Next;
    if history != [] {
      var init, last := history[..|history| - 1], history[|history| - 1];
      assert last in history && forall e :: e in init ==> e in history;
      NamesAreGrowth(policy, start, init);
    }
  }

  /**
    So if one place of the fleet was left at the evaluation and nothing is taken back, enlisting an agent of a
    new name keeps the fleet within its limit if and only if no other new agent was enlisted in between.
   */
  lemma LastPlaceExactly(policy: Policy, start: World, history: seq<Event>, end: World, payload: Payload)
    requires Orderly(start) && end == Replay(policy, start, history)
    requires Count(start.reg.agents, Managed()) + 1 == policy.maxActive
    requires (forall e :: e in history ==> !e.TakeBack?) && !Has(end.reg.agents, ManagedSlug(payload.slug))
    ensures Count(Activate(end.reg.agents, payload), Managed()) <= policy.maxActive <==>
              NewNames(policy, start, history) == 0
  {
    hide Orderly, Replay, Growth, NewNames;
    CountsAddUp(policy, start, history, Managed());
    NamesAreGrowth(policy, start, history);
    ActivateCounts(end.reg.agents, payload, Managed());
  }
}
