/** Two policy coordinators whose evaluations overlap, and a fleet above its limit. */
module FleetRace {
  import opened Tables
  import opened AgentRequests
  import opened Fleet
  import opened FleetLimits

  // ---- In any state -----------------------------------------------------------------------------

  lemma NewNameReplacesNothing(agents: seq<Agent>, slug: string)
    requires !Has(agents, ManagedSlug(slug))
    ensures Replaced(agents, slug, Managed()) == 0
  {
    match Last(agents, WithSlug(slug))
    case Some(a) => assert !ManagedSlug(slug)(agents[a]);
    case None =>
  }

  lemma JoinOfANewName(policy: Policy, w: World, j: nat, after: World)
    requires Joins(w, Join(j)) && after == Next(policy, w, Join(j))
    requires !Has(w.reg.agents, ManagedSlug(w.reg.asks[w.jobs[j].request].payload.slug))
    ensures after.jobs == w.jobs - {j} && after.reg.asks == w.reg.asks
    ensures Count(after.reg.agents, Managed()) == Count(w.reg.agents, Managed()) + 1
  {
    var payload := w.reg.asks[w.jobs[j].request].payload;
    NewNameReplacesNothing(w.reg.agents, payload.slug);
    ActivateCounts(w.reg.agents, payload, Managed());
  }

  lemma OthersStayNew(agents: seq<Agent>, payload: Payload, slug: string)
    requires slug != payload.slug && !Has(agents, ManagedSlug(slug))
    ensures !Has(Activate(agents, payload), ManagedSlug(slug))
  {
    var after := Activate(agents, payload);
    forall i | 0 <= i < |after| ensures !ManagedSlug(slug)(after[i]) {
      if i < |agents| {
        assert !ManagedSlug(slug)(agents[i]);
      }
    }
  }

  /**
    Two coordinators about to enlist agents of different new names add two to the fleet, so they take it over
    its limit unless two places are left.
   */
  lemma OverlapExceedsTheLimit(policy: Policy, w: World, i: nat, j: nat, p: Payload, q: Payload, end: World)
    requires i != j && Joins(w, Join(i)) && Joins(w, Join(j))
    requires p == w.reg.asks[w.jobs[i].request].payload && q == w.reg.asks[w.jobs[j].request].payload
    requires p.slug != q.slug && !Has(w.reg.agents, ManagedSlug(p.slug)) && !Has(w.reg.agents, ManagedSlug(q.slug))
    requires end == Next(policy, Next(policy, w, Join(i)), Join(j))
    ensures Count(end.reg.agents, Managed()) == Count(w.reg.agents, Managed()) + 2
    ensures Count(end.reg.agents, Managed()) <= policy.maxActive <==>
              Count(w.reg.agents, Managed()) + 2 <= policy.maxActive
  {
    var mid := Next(policy, w, Join(i));
    JoinOfANewName(policy, w, i, mid);
    OthersStayNew(w.reg.agents, p, q.slug);
    assert mid.reg.agents == Activate(w.reg.agents, p);
    JoinOfANewName(policy, mid, j, end);
  }

  // ---- From the empty registry ------------------------------------------------------------------

  function Overlapping(who: string, p: Payload, q: Payload): seq<Event> {
    [Request(who, "a", p), Request(who, "b", q), Judge(0, 0), Judge(1, 1), Settle(0), Settle(1),
     Record(0, None), Record(1, None), Join(0), Join(1)]
  }

  lemma OneMore(policy: Policy, history: seq<Event>, n: nat, w: World)
    requires n < |history| && w == Replay(policy, EMPTY_WORLD, history[..n])
    ensures Replay(policy, EMPTY_WORLD, history[..n + 1]) == Next(policy, w, history[n])
  {
    hide Next;
    assert history[..n + 1][..n] == history[..n];
  }

  lemma KeysDiffer()
    ensures DecisionKey(0) != DecisionKey(1) && ApplyKey(0) != ApplyKey(1)
  {
    assert Decimal(0) == "0" && Decimal(1) == "1";
    assert DecisionKey(0)[22] != DecisionKey(1)[22];
    assert ApplyKey(0)[19] != ApplyKey(1)[19];
  }

  lemma AskFresh(reg: Registry, who: string, key: string, payload: Payload, after: Registry)
    requires !Has(reg.asks, AskedUnder(key)) && after == RequestAgent(reg, who, key, payload).registry
    ensures after.asks == reg.asks + [Ask(key, who, payload, Pending, None, None, None)]
    ensures after.agents == reg.agents
  {
  }

  lemma JudgeFresh(policy: Policy, w: World, j: nat, r: Id, after: World)
    requires j !in w.jobs && r < |w.reg.asks| && w.reg.asks[r].stage == Pending
    requires Evaluate(policy, w.reg, w.reg.asks[r]) && after == Next(policy, w, Judge(j, r))
    ensures after == w.(jobs := w.jobs[j := Job(r, policy.actor, ApplyKey(r), Judged(true), w.enlisted, false)])
  {
    hide Evaluate;
  }

  /** An approval of the policy that nothing refuses, and how it leaves the request. */
  function ApprovedBy(policy: Policy, ask: Ask, r: Id): Ask {
    ask.(stage := Approved, decision := Some(Order(DecisionKey(r), "approve:", policy.actor)))
  }

  function AppliedBy(policy: Policy, ask: Ask, r: Id): Ask {
    ask.(stage := Applied, application := Some(Order(ApplyKey(r), "applied", policy.actor)))
  }

  lemma SettleFresh(policy: Policy, w: World, j: nat, r: Id, after: World)
    requires j in w.jobs && w.jobs[j].phase == Judged(true) && w.jobs[j].request == r && r < |w.reg.asks|
    requires w.reg.asks[r].stage == Pending && w.reg.asks[r].decision.None?
    requires w.reg.asks[r].requester != policy.actor && !Has(w.reg.asks, DecidedUnder(DecisionKey(r)))
    requires after == Next(policy, w, Settle(j))
    ensures after.reg.asks == w.reg.asks[r := ApprovedBy(policy, w.reg.asks[r], r)]
    ensures after.reg.agents == w.reg.agents && after.jobs == w.jobs[j := w.jobs[j].(phase := Cleared)]
  {
    assert "approve:" + "" == "approve:";
  }

  lemma RecordFresh(policy: Policy, w: World, j: nat, r: Id, after: World)
    requires j in w.jobs && w.jobs[j].phase == Cleared && w.jobs[j].request == r && r < |w.reg.asks|
    requires w.jobs[j].actor == policy.actor && w.jobs[j].key == ApplyKey(r)
    requires w.reg.asks[r].stage == Approved && w.reg.asks[r].application.None?
    requires !Has(w.reg.asks, AppliedUnder(ApplyKey(r))) && after == Next(policy, w, Record(j, None))
    ensures after.reg.asks == w.reg.asks[r := AppliedBy(policy, w.reg.asks[r], r)]
    ensures after.reg.agents == w.reg.agents && after.jobs == w.jobs[j := w.jobs[j].(phase := Recorded)]
  {
  }

  predicate Eligible(policy: Policy, payload: Payload) {
    payload.role in policy.roleLimits && policy.roleLimits[payload.role] > 0 && policy.contained(payload)
  }

  /** Both requests are pending and nobody is enlisted. */
  lemma BothAreAsked(policy: Policy, who: string, p: Payload, q: Payload, history: seq<Event>) returns (w: World)
    requires history == Overlapping(who, p, q)
    ensures w == Replay(policy, EMPTY_WORLD, history[..2]) && w.reg.agents == [] && w.jobs == map[]
    ensures w.reg.asks == [Ask("a", who, p, Pending, None, None, None), Ask("b", who, q, Pending, None, None, None)]
    ensures w.enlisted == 0
  {
    hide RequestAgent;
    var first := Replay(policy, EMPTY_WORLD, history[..0]);
    OneMore(policy, history, 0, first);
    var second := Next(policy, first, history[0]);
    AskFresh(first.reg, who, "a", p, second.reg);
    OneMore(policy, history, 1, second);
    w := Next(policy, second, history[1]);
    AskFresh(second.reg, who, "b", q, w.reg);
  }

  /** Both are evaluated before either is decided. */
  lemma BothAreJudged(policy: Policy, who: string, p: Payload, q: Payload, history: seq<Event>) returns (w: World)
    requires history == Overlapping(who, p, q) && who != policy.actor && policy.maxActive > 0
    requires Eligible(policy, p) && Eligible(policy, q)
    ensures w == Replay(policy, EMPTY_WORLD, history[..4]) && w.reg.agents == []
    ensures w.reg.asks == [Ask("a", who, p, Pending, None, None, None), Ask("b", who, q, Pending, None, None, None)]
    ensures w.jobs == map[0 := Job(0, policy.actor, ApplyKey(0), Judged(true), 0, false),
                          1 := Job(1, policy.actor, ApplyKey(1), Judged(true), 0, false)]
  {
    hide Next, Replay;
    var asked := BothAreAsked(policy, who, p, q, history);
    OneMore(policy, history, 2, asked);
    var mid := Next(policy, asked, history[2]);
    JudgeFresh(policy, asked, 0, 0, mid);
    OneMore(policy, history, 3, mid);
    w := Next(policy, mid, history[3]);
    JudgeFresh(policy, mid, 1, 1, w);
  }

  lemma BothAreCleared(policy: Policy, who: string, p: Payload, q: Payload, history: seq<Event>) returns (w: World)
    requires history == Overlapping(who, p, q) && who != policy.actor && policy.maxActive > 0
    requires Eligible(policy, p) && Eligible(policy, q)
    ensures w == Replay(policy, EMPTY_WORLD, history[..6]) && w.reg.agents == []
    ensures w.reg.asks == [ApprovedBy(policy, Ask("a", who, p, Pending, None, None, None), 0),
                           ApprovedBy(policy, Ask("b", who, q, Pending, None, None, None), 1)]
    ensures w.jobs == map[0 := Job(0, policy.actor, ApplyKey(0), Cleared, 0, false),
                          1 := Job(1, policy.actor, ApplyKey(1), Cleared, 0, false)]
  {
    hide Next, Replay, Eligible, DecisionKey, ApplyKey;
    KeysDiffer();
    var judged := BothAreJudged(policy, who, p, q, history);
    OneMore(policy, history, 4, judged);
    var mid := Next(policy, judged, history[4]);
    SettleFresh(policy, judged, 0, 0, mid);
    OneMore(policy, history, 5, mid);
    w := Next(policy, mid, history[5]);
    SettleFresh(policy, mid, 1, 1, w);
  }

  lemma BothAreRecorded(policy: Policy, who: string, p: Payload, q: Payload, history: seq<Event>) returns (w: World)
    requires history == Overlapping(who, p, q) && who != policy.actor && policy.maxActive > 0
    requires Eligible(policy, p) && Eligible(policy, q)
    ensures w == Replay(policy, EMPTY_WORLD, history[..8]) && w.reg.agents == []
    ensures |w.reg.asks| == 2 && w.reg.asks[0].payload == p && w.reg.asks[1].payload == q
    ensures w.jobs == map[0 := Job(0, policy.actor, ApplyKey(0), Recorded, 0, false),
                          1 := Job(1, policy.actor, ApplyKey(1), Recorded, 0, false)]
  {
    hide Next, Replay, Eligible, DecisionKey, ApplyKey;
    KeysDiffer();
    var cleared := BothAreCleared(policy, who, p, q, history);
    OneMore(policy, history, 6, cleared);
    var mid := Next(policy, cleared, history[6]);
    RecordFresh(policy, cleared, 0, 0, mid);
    OneMore(policy, history, 7, mid);
    w := Next(policy, mid, history[7]);
    RecordFresh(policy, mid, 1, 1, w);
  }

  /**
    With a limit of one agent, two requests evaluated before either agent is enlisted end with two, although
    only the policy provisions and nothing crashes.
   */
  lemma OverlapIsReachable(policy: Policy, who: string, p: Payload, q: Payload, history: seq<Event>)
    requires history == Overlapping(who, p, q) && who != policy.actor && p.slug != q.slug && policy.maxActive == 1
    requires Eligible(policy, p) && Eligible(policy, q)
    ensures PolicyDriven(history) && !AlwaysUninterrupted(policy, EMPTY_WORLD, history)
    ensures Count(Replay(policy, EMPTY_WORLD, history).reg.agents, Managed()) == 2
    ensures !WithinLimits(policy, Replay(policy, EMPTY_WORLD, history).reg.agents)
  {
    var recorded := BothAreRecorded(policy, who, p, q, history);
    hide Next, Replay, Eligible;
    OneMore(policy, history, 8, recorded);
    OneMore(policy, history, 9, Next(policy, recorded, history[8]));
    assert history[..10] == history;
    OverlapExceedsTheLimit(policy, recorded, 0, 1, p, q, Replay(policy, EMPTY_WORLD, history));
    if AlwaysUninterrupted(policy, EMPTY_WORLD, history) {
      FleetStaysWithinLimits(policy, history);
    }
  }
}
