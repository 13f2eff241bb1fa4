/**
  The agent fleet under any number of policy coordinators, each of which evaluates a request, decides it,
  records the application and enlists the agent in steps that others may come between.
 */
module Fleet {
  import opened Tables
  import opened AgentRequests
  import opened AgentAudit

  // ---- Steps ----------------------------------------------------------------------------------

  /** How far a coordinator, or a person, has got with a request. */
  datatype Phase = Judged(approve: bool) | Cleared | Recorded

  /** `seen` is the number of agents that had been enlisted when the request was evaluated. */
  datatype Job = Job(request: Id, actor: string, key: string, phase: Phase, seen: nat, byHand: bool)

  /** `enlisted` counts the agents enlisted so far; `lost` are the requests whose agent a crash left out. */
  datatype World = World(reg: Registry, jobs: map<nat, Job>, enlisted: nat, lost: set<Id>)

  datatype Event =
    | Request(actor: string, key: string, payload: Payload)
    | Resolve(request: Id, actor: string, key: string, approve: bool, reason: string)
    | Retire(request: Id, actor: string, key: string, reason: string)
    | TakeBack(request: Id, actor: string, key: string, reason: string)
    | ByHand(job: nat, request: Id, actor: string, key: string, error: Option<string>)
    | Judge(job: nat, request: Id)
    | Settle(job: nat)
    | Record(job: nat, error: Option<string>)
    | Join(job: nat)
    | Crash(job: nat)

  const EMPTY_WORLD: World := World(Registry([], [], []), map[], 0, {})

  function JudgeStep(policy: Policy, w: World, j: nat, r: Id): World {
    match JudgementOf(policy, w.reg, r)
    case Ignored => w
    case Decides(approve) =>
      w.(jobs := w.jobs[j := Job(r, policy.actor, ApplyKey(r), Judged(approve), w.enlisted, false)])
    case ClearsIt =>
      w.(jobs := w.jobs[j := Job(r, policy.actor, ApplyKey(r), Cleared, w.enlisted, false)])
  }

  function SettleStep(policy: Policy, w: World, j: nat): World
    requires j in w.jobs && w.jobs[j].phase.Judged?
  {
    var job := w.jobs[j];
    var decided := PolicyDecision(policy, w.reg, job.request, job.phase.approve);
    if decided.out.Done? && job.phase.approve
    then w.(reg := decided.registry, jobs := w.jobs[j := job.(phase := Cleared)])
    else w.(reg := decided.registry, jobs := w.jobs - {j})
  }

  function RecordStep(w: World, j: nat, error: Option<string>): World
    requires j in w.jobs && w.jobs[j].phase.Cleared?
  {
    var job := w.jobs[j];
    var opening := BeginProvision(w.reg, job.request, job.actor, job.key, error);
    w.(reg := opening.step.registry,
       jobs := if opening.goesOn then w.jobs[j := job.(phase := Recorded)] else w.jobs - {j})
  }

  function JoinStep(w: World, j: nat): World
    requires j in w.jobs && w.jobs[j].request < |w.reg.asks|
  {
    w.(reg := Enlist(w.reg, w.jobs[j].request), jobs := w.jobs - {j}, enlisted := w.enlisted + 1)
  }

  function ByHandStep(w: World, j: nat, r: Id, actor: string, key: string, error: Option<string>): World {
    var opening := BeginProvision(w.reg, r, actor, key, error);
    w.(reg := opening.step.registry,
       jobs := if opening.goesOn then w.jobs[j := Job(r, actor, key, Recorded, w.enlisted, true)] else w.jobs)
  }

  function CrashStep(w: World, j: nat): World
    requires j in w.jobs
  {
    w.(jobs := w.jobs - {j}, lost := if w.jobs[j].phase.Recorded? then w.lost + {w.jobs[j].request} else w.lost)
  }

  /** The job is there and about to enlist its agent. */
  predicate Joins(w: World, e: Event) {
    e.Join? && e.job in w.jobs && w.jobs[e.job].phase.Recorded? && w.jobs[e.job].request < |w.reg.asks|
  }

  /** One transaction, or the crash of a coordinator. A step whose job is not at that point does nothing. */
  function Next(policy: Policy, w: World, e: Event): World {
    match e
    case Request(actor, key, payload) => w.(reg := RequestAgent(w.reg, actor, key, payload).registry)
    case Resolve(r, actor, key, approve, reason) =>
      w.(reg := DecideRequest(w.reg, r, actor, key, approve, reason).registry)
    case Retire(r, actor, key, reason) => w.(reg := RetireRequest(w.reg, r, actor, key, reason).registry)
    case TakeBack(r, actor, key, reason) => w.(reg := RollbackAgent(w.reg, r, actor, key, reason).registry)
    case ByHand(j, r, actor, key, error) => if j in w.jobs then w else ByHandStep(w, j, r, actor, key, error)
    case Judge(j, r) => if j in w.jobs then w else JudgeStep(policy, w, j, r)
    case Settle(j) => if j in w.jobs && w.jobs[j].phase.Judged? then SettleStep(policy, w, j) else w
    case Record(j, error) => if j in w.jobs && w.jobs[j].phase.Cleared? then RecordStep(w, j, error) else w
    case Join(j) => if Joins(w, e) then JoinStep(w, j) else w
    case Crash(j) => if j in w.jobs then CrashStep(w, j) else w
  }

  function Replay(policy: Policy, start: World, history: seq<Event>): World {
    if history == [] then start
    else Next(policy, Replay(policy, start, history[..|history| - 1]), history[|history| - 1])
  }

  // ---- What every step keeps ------------------------------------------------------------------

  ghost predicate HasRow(agents: seq<Agent>, slug: string) {
    exists a :: 0 <= a < |agents| && agents[a].slug == slug
  }

  /** Requests are only added and keep what was asked; agents' rows are only added and keep their slugs. */
  ghost predicate Grows(a: Registry, b: Registry) {
    && |a.asks| <= |b.asks| && |a.agents| <= |b.agents|
    && (forall r :: 0 <= r < |a.asks| ==> b.asks[r].payload == a.asks[r].payload)
    && forall i :: 0 <= i < |a.agents| ==> b.agents[i].slug == a.agents[i].slug
  }

  lemma BeginKeeps(reg: Registry, r: Id, actor: string, key: string, error: Option<string>, opening: Opening)
    requires Sound(reg) && opening == BeginProvision(reg, r, actor, key, error)
    ensures Sound(opening.step.registry) && Grows(reg, opening.step.registry)
    ensures opening.step.registry.agents == reg.agents
    ensures opening.goesOn ==> r < |reg.asks|
    ensures forall k :: 0 <= k < |reg.asks| && k != r ==> opening.step.registry.asks[k] == reg.asks[k]
    ensures forall k :: 0 <= k < |reg.asks| && opening.step.registry.asks[k].stage == Applied ==>
              reg.asks[k].stage == Applied || (k == r && opening.goesOn)
  {
    hide Sound;
    ApplyKeepsSound(reg, r, actor, key, error, RecordApplication(reg, r, actor, key, error));
  }

  lemma EnlistKeeps(reg: Registry, r: Id)
    requires Sound(reg) && r < |reg.asks|
    ensures Sound(Enlist(reg, r)) && Grows(reg, Enlist(reg, r)) && Enlist(reg, r).asks == reg.asks
    ensures HasRow(Enlist(reg, r).agents, reg.asks[r].payload.slug)
  {
    var after := Enlist(reg, r);
    match Last(reg.agents, WithSlug(reg.asks[r].payload.slug))
    case Some(a) => assert after.agents[a].slug == reg.asks[r].payload.slug;
    case None => assert after.agents[|reg.agents|].slug == reg.asks[r].payload.slug;
  }

  /** The services other than provisioning apply nothing and enlist nobody. */
  ghost predicate Modest(a: Registry, b: Registry) {
    && Sound(b) && Grows(a, b) && |a.agents| == |b.agents|
    && (forall r :: 0 <= r < |b.asks| && b.asks[r].stage == Applied ==> r < |a.asks| && a.asks[r].stage == Applied)
    && forall i :: 0 <= i < |a.agents| ==>
         && b.agents[i] == a.agents[i].(active := b.agents[i].active, rollbackKey := b.agents[i].rollbackKey)
         && (b.agents[i].active ==> a.agents[i].active)
  }

  lemma DecisionModest(reg: Registry, r: Id, actor: string, key: string, approve: bool, reason: string, step: Step)
    requires Sound(reg) && step == DecideRequest(reg, r, actor, key, approve, reason)
    ensures Modest(reg, step.registry)
  {
    DecideKeepsSound(reg, r, actor, key, approve, reason, step);
  }

  lemma RequestModest(reg: Registry, actor: string, key: string, payload: Payload, step: Step)
    requires Sound(reg) && step == RequestAgent(reg, actor, key, payload)
    ensures Modest(reg, step.registry)
  {
    AskKeepsSound(reg, actor, key, payload, step);
  }

  lemma RetireModest(reg: Registry, r: Id, actor: string, key: string, reason: string, step: Step)
    requires Sound(reg) && step == RetireRequest(reg, r, actor, key, reason)
    ensures Modest(reg, step.registry)
    ensures forall k :: 0 <= k < |reg.asks| && k != r ==> step.registry.asks[k] == reg.asks[k]
  {
    RetireKeepsSound(reg, r, actor, key, reason, step);
  }

  lemma TakeBackModest(reg: Registry, r: Id, actor: string, key: string, reason: string, step: Step)
    requires Sound(reg) && step == RollbackAgent(reg, r, actor, key, reason)
    ensures Modest(reg, step.registry)
    ensures r < |reg.asks| && !HasRow(reg.agents, reg.asks[r].payload.slug) ==> step.registry == reg
    ensures forall k :: 0 <= k < |reg.asks| && k != r ==> step.registry.asks[k] == reg.asks[k]
  {
    if step.registry != reg {
      var a := Last(reg.agents, WithSlug(reg.asks[r].payload.slug)).value;
      var row := reg.agents[a].(active := false, rollbackKey := Some(key));
      var stopped := reg.(agents := reg.agents[a := row]);
      RetireKeepsSound(stopped, r, actor, key, reason, RetireRequest(stopped, r, actor, key, reason));
      assert reg.agents[a].slug == reg.asks[r].payload.slug;
    }
  }

  /** Every applied request has its agent, or the agent is still to be enlisted, or a crash left it out. */
  ghost predicate Attended(w: World, r: Id)
    requires r < |w.reg.asks|
  {
    || HasRow(w.reg.agents, w.reg.asks[r].payload.slug)
    || (exists j :: j in w.jobs && w.jobs[j].request == r && w.jobs[j].phase.Recorded?)
    || r in w.lost
  }

  ghost predicate Orderly(w: World) {
    && Sound(w.reg)
    && (forall j :: j in w.jobs ==> w.jobs[j].request < |w.reg.asks|)
    && forall r :: 0 <= r < |w.reg.asks| && w.reg.asks[r].stage == Applied ==> Attended(w, r)
  }

  lemma ModestKeepsOrderly(w: World, reg: Registry)
    requires Orderly(w) && Modest(w.reg, reg)
    ensures Orderly(w.(reg := reg))
  {
    var after := w.(reg := reg);
    forall r | 0 <= r < |reg.asks| && reg.asks[r].stage == Applied ensures Attended(after, r) {
      assert Attended(w, r);
      if i :| 0 <= i < |w.reg.agents| && w.reg.agents[i].slug == w.reg.asks[r].payload.slug {
        assert reg.agents[i].slug == reg.asks[r].payload.slug;
      }
    }
  }

  /** Only a job whose application is recorded stands for an agent. */
  lemma JobsKeepOrderly(w: World, jobs: map<nat, Job>)
    requires Orderly(w) && forall j :: j in jobs ==> jobs[j].request < |w.reg.asks|
    requires forall j :: j in w.jobs && w.jobs[j].phase.Recorded? ==>
               j in jobs && jobs[j].phase.Recorded? && jobs[j].request == w.jobs[j].request
    ensures Orderly(w.(jobs := jobs))
  {
    var after := w.(jobs := jobs);
    forall r | 0 <= r < |w.reg.asks| && w.reg.asks[r].stage == Applied ensures Attended(after, r) {
      assert Attended(w, r);
    }
  }

  /** A first transaction of provisioning that goes on leaves a job behind. */
  lemma OpeningKeepsOrderly(w: World, j: nat, job: Job, opening: Opening, after: World, error: Option<string>)
    requires Orderly(w) && job.phase.Recorded? && (j in w.jobs ==> !w.jobs[j].phase.Recorded?)
    requires opening == BeginProvision(w.reg, job.request, job.actor, job.key, error)
    requires after == w.(reg := opening.step.registry,
                         jobs := if opening.goesOn then w.jobs[j := job] else w.jobs - {j})
    ensures Orderly(after)
  {
    BeginKeeps(w.reg, job.request, job.actor, job.key, error, opening);
    forall r | 0 <= r < |after.reg.asks| && after.reg.asks[r].stage == Applied ensures Attended(after, r) {
      if w.reg.asks[r].stage == Applied {
        assert Attended(w, r);
        if k :| k in w.jobs && w.jobs[k].request == r && w.jobs[k].phase.Recorded? {
          assert k in after.jobs && after.jobs[k] == w.jobs[k];
        }
      } else {
        assert j in after.jobs && after.jobs[j] == job;
      }
    }
  }

  lemma JoinKeepsOrderly(w: World, j: nat)
    requires Orderly(w) && j in w.jobs && w.jobs[j].phase.Recorded?
    ensures Orderly(JoinStep(w, j))
  {
    var done := w.jobs[j].request;
    var after := JoinStep(w, j);
    EnlistKeeps(w.reg, done);
    forall r | 0 <= r < |after.reg.asks| && after.reg.asks[r].stage == Applied ensures Attended(after, r) {
      assert Attended(w, r);
      if i :| 0 <= i < |w.reg.agents| && w.reg.agents[i].slug == w.reg.asks[r].payload.slug {
        assert after.reg.agents[i].slug == w.reg.asks[r].payload.slug;
      } else if r != done && exists k :: k in w.jobs && w.jobs[k].request == r && w.jobs[k].phase.Recorded? {
        var k :| k in w.jobs && w.jobs[k].request == r && w.jobs[k].phase.Recorded?;
        assert k in after.jobs && after.jobs[k] == w.jobs[k];
      }
    }
  }

  lemma CrashKeepsOrderly(w: World, j: nat)
    requires Orderly(w) && j in w.jobs
    ensures Orderly(CrashStep(w, j))
  {
    var after := CrashStep(w, j);
    forall r | 0 <= r < |after.reg.asks| && after.reg.asks[r].stage == Applied ensures Attended(after, r) {
      assert Attended(w, r);
      if k :| k in w.jobs && w.jobs[k].request == r && w.jobs[k].phase.Recorded? {
        assert k == j || (k in after.jobs && after.jobs[k] == w.jobs[k]);
      }
    }
  }

  lemma ServiceStep(policy: Policy, w: World, e: Event, after: World)
    requires Orderly(w) && (e.Request? || e.Resolve? || e.Retire? || e.TakeBack?) && after == Next(policy, w, e)
    ensures Modest(w.reg, after.reg) && after == w.(reg := after.reg)
  {
    match e
    case Request(actor, key, payload) =>
      RequestModest(w.reg, actor, key, payload, RequestAgent(w.reg, actor, key, payload));
    case Resolve(r, actor, key, approve, reason) =>
      DecisionModest(w.reg, r, actor, key, approve, reason, DecideRequest(w.reg, r, actor, key, approve, reason));
    case Retire(r, actor, key, reason) =>
      RetireModest(w.reg, r, actor, key, reason, RetireRequest(w.reg, r, actor, key, reason));
    case TakeBack(r, actor, key, reason) =>
      TakeBackModest(w.reg, r, actor, key, reason, RollbackAgent(w.reg, r, actor, key, reason));
  }

  lemma SettleKeepsOrderly(policy: Policy, w: World, j: nat)
    requires Orderly(w) && j in w.jobs && w.jobs[j].phase.Judged?
    ensures Orderly(SettleStep(policy, w, j)) && Modest(w.reg, SettleStep(policy, w, j).reg)
  {
    var job := w.jobs[j];
    var step := PolicyDecision(policy, w.reg, job.request, job.phase.approve);
    DecisionModest(w.reg, job.request, policy.actor, DecisionKey(job.request), job.phase.approve, "", step);
    ModestKeepsOrderly(w, step.registry);
    JobsKeepOrderly(w.(reg := step.registry), SettleStep(policy, w, j).jobs);
  }

  lemma NextKeepsOrderly(policy: Policy, w: World, e: Event, after: World)
    requires Orderly(w) && after == Next(policy, w, e)
    ensures Orderly(after)
  {
    match e
    case ByHand(j, r, actor, key, error) =>
      if j !in w.jobs {
        var opening := BeginProvision(w.reg, r, actor, key, error);
        assert w.jobs - {j} == w.jobs;
        OpeningKeepsOrderly(w, j, Job(r, actor, key, Recorded, w.enlisted, true), opening, after, error);
      }
    case Judge(j, r) => JobsKeepOrderly(w, after.jobs);
    case Settle(j) =>
      if j in w.jobs && w.jobs[j].phase.Judged? {
        SettleKeepsOrderly(policy, w, j);
      }
    case Record(j, error) =>
      if j in w.jobs && w.jobs[j].phase.Cleared? {
        var job := w.jobs[j];
        OpeningKeepsOrderly(w, j, job.(phase := Recorded),
          BeginProvision(w.reg, job.request, job.actor, job.key, error), after, error);
      }
    case Join(j) =>
      if Joins(w, e) {
        JoinKeepsOrderly(w, j);
      }
    case Crash(j) =>
      if j in w.jobs {
        CrashKeepsOrderly(w, j);
      }
    case _ =>
      ServiceStep(policy, w, e, after);
      ModestKeepsOrderly(w, after.reg);
  }

  lemma {:induction false} EveryWorldIsOrderly(policy: Policy, start: World, history: seq<Event>)
    requires Orderly(start)
    ensures Orderly(Replay(policy, start, history))
  {
    hide Next, Orderly;
    if history != [] {
      var init, last := history[..|history| - 1], history[|history| - 1];
      EveryWorldIsOrderly(policy, start, init);
      NextKeepsOrderly(policy, Replay(policy, start, init), last, Replay(policy, start, history));
    }
  }

  // ---- Left alone -----------------------------------------------------------------------------

  lemma ClearedProvisions(policy: Policy, w: World, j: nat, error: Option<string>, c: World, end: World)
    requires Sound(w.reg) && j in w.jobs && w.jobs[j].phase.Cleared? && w.jobs[j].request < |w.reg.asks|
    requires c == Next(policy, w, Record(j, error)) && end == Next(policy, c, Join(j))
    ensures end.reg == Provision(w.reg, w.jobs[j].request, w.jobs[j].actor, w.jobs[j].key, error).registry
    ensures j !in end.jobs
  {
    hide Sound, RecordApplication, Activate;
    var job := w.jobs[j];
    BeginKeeps(w.reg, job.request, job.actor, job.key, error,
      BeginProvision(w.reg, job.request, job.actor, job.key, error));
  }

  lemma ReplayFour(policy: Policy, w: World, history: seq<Event>, a: World, b: World, c: World)
    requires |history| == 4 && a == Next(policy, w, history[0]) && b == Next(policy, a, history[1])
    requires c == Next(policy, b, history[2])
    ensures Replay(policy, w, history) == Next(policy, c, history[3])
  {
    hide Next;
    var three, two, one := history[..3], history[..2], history[..1];
    assert three[..2] == two && two[..1] == one && one[..0] == [];
    assert Replay(policy, w, one) == a;
    assert Replay(policy, w, two) == b;
    assert Replay(policy, w, three) == c;
  }

  /** With nothing in between, the four steps are what the service does when it is left alone. */
  lemma ProcessingIsUninterrupted(policy: Policy, w: World, j: nat, r: Id, error: Option<string>, history: seq<Event>)
    requires Sound(w.reg) && j !in w.jobs
    requires history == [Judge(j, r), Settle(j), Record(j, error), Join(j)]
    ensures Replay(policy, w, history).reg == ProcessRequest(policy, w.reg, r, error).registry
    ensures j !in Replay(policy, w, history).jobs
  {
    hide Sound, Evaluate, BeginProvision, Provision;
    var a := Next(policy, w, history[0]);
    var b := Next(policy, a, history[1]);
    var c := Next(policy, b, history[2]);
    ReplayFour(policy, w, history, a, b, c);
    match JudgementOf(policy, w.reg, r)
    case Ignored =>
    case ClearsIt => ClearedProvisions(policy, b, j, error, c, Next(policy, c, history[3]));
    case Decides(approve) =>
      DecisionModest(w.reg, r, policy.actor, DecisionKey(r), approve, "", PolicyDecision(policy, w.reg, r, approve));
      if j in b.jobs {
        ClearedProvisions(policy, b, j, error, c, Next(policy, c, history[3]));
      }
  }

  lemma EmptyIsOrderly()
    ensures Orderly(EMPTY_WORLD)
  {
  }

  /** Each request's audited transitions chain from pending to its present stage. */
  lemma AuditReplaysToTheStage(policy: Policy, history: seq<Event>, reg: Registry, r: Id, k: nat)
    requires reg == Replay(policy, EMPTY_WORLD, history).reg && r < |reg.asks|
    ensures reg.asks[r].stage == StageOf(reg.notes, r)
    ensures k < |reg.notes| && reg.notes[k].Moved? ==>
              && reg.notes[k].previous == StageOf(reg.notes[..k], reg.notes[k].request)
              && Allowed(reg.notes[k].previous, reg.notes[k].stage)
    ensures reg.asks[r].stage in {Applied, Retired} ==>
              reg.asks[r].decision.Some? && reg.asks[r].decision.value.actor != reg.asks[r].requester
  {
    EmptyIsOrderly();
    EveryWorldIsOrderly(policy, EMPTY_WORLD, history);
  }

  // ---- Applied requests and their agents --------------------------------------------------------

  /** Where no crash fell between the two transactions and none is under way, every applied request has its agent. */
  lemma AppliedHaveAgents(policy: Policy, history: seq<Event>, w: World, r: Id)
    requires w == Replay(policy, EMPTY_WORLD, history) && w.lost == {}
    requires forall j :: j in w.jobs ==> !w.jobs[j].phase.Recorded?
    requires r < |w.reg.asks| && w.reg.asks[r].stage == Applied
    ensures HasRow(w.reg.agents, w.reg.asks[r].payload.slug)
  {
    EmptyIsOrderly();
    EveryWorldIsOrderly(policy, EMPTY_WORLD, history);
    assert Attended(w, r);
  }

  /** Applied, without an agent, and nobody about to enlist one of that name. */
  ghost predicate Stranded(w: World, r: Id) {
    && r < |w.reg.asks| && w.reg.asks[r].stage == Applied
    && !HasRow(w.reg.agents, w.reg.asks[r].payload.slug)
    && forall j :: j in w.jobs && w.jobs[j].request < |w.reg.asks| && w.jobs[j].phase.Recorded? ==>
         w.reg.asks[w.jobs[j].request].payload.slug != w.reg.asks[r].payload.slug
  }

  /**
    A crash between the two transactions strands the request if it is still applied, unless its agent exists
    or another job is about to enlist it; and nothing else can strand a request.
   */
  lemma CrashStrandsExactly(policy: Policy, w: World, e: Event, r: Id, after: World)
    requires Orderly(w) && after == Next(policy, w, e) && r < |w.reg.asks| && !Stranded(w, r)
    ensures Stranded(after, r) <==>
              && e.Crash? && e.job in w.jobs && w.jobs[e.job].phase.Recorded?
              && w.reg.asks[w.jobs[e.job].request].payload.slug == w.reg.asks[r].payload.slug
              && w.reg.asks[r].stage == Applied && !HasRow(w.reg.agents, w.reg.asks[r].payload.slug)
              && forall j :: j in w.jobs && j != e.job && w.jobs[j].phase.Recorded? ==>
                   w.reg.asks[w.jobs[j].request].payload.slug != w.reg.asks[r].payload.slug
  {
    if e.Crash? {
      CrashStrands(policy, w, e, r, after);
    } else if Stranded(after, r) {
      StrandingNeedsACrash(policy, w, e, r, after);
    }
  }

  lemma CrashStrands(policy: Policy, w: World, e: Event, r: Id, after: World)
    requires Orderly(w) && e.Crash? && after == Next(policy, w, e) && r < |w.reg.asks| && !Stranded(w, r)
    ensures Stranded(after, r) <==>
              && e.job in w.jobs && w.jobs[e.job].phase.Recorded?
              && w.reg.asks[w.jobs[e.job].request].payload.slug == w.reg.asks[r].payload.slug
              && w.reg.asks[r].stage == Applied && !HasRow(w.reg.agents, w.reg.asks[r].payload.slug)
              && forall j :: j in w.jobs && j != e.job && w.jobs[j].phase.Recorded? ==>
                   w.reg.asks[w.jobs[j].request].payload.slug != w.reg.asks[r].payload.slug
  {
    hide Sound;
    assert forall j :: j in after.jobs ==> j in w.jobs && j != e.job && after.jobs[j] == w.jobs[j];
    assert forall j :: j in w.jobs && j != e.job ==> j in after.jobs;
  }

  lemma RowsStay(a: Registry, b: Registry, slug: string)
    requires Grows(a, b) && HasRow(a.agents, slug)
    ensures HasRow(b.agents, slug)
  {
    var i :| 0 <= i < |a.agents| && a.agents[i].slug == slug;
    assert b.agents[i].slug == slug;
  }

  lemma NextGrows(policy: Policy, w: World, e: Event, after: World)
    requires Orderly(w) && after == Next(policy, w, e)
    ensures Grows(w.reg, after.reg)
  {
    match e
    case ByHand(j, r, actor, key, error) =>
      BeginKeeps(w.reg, r, actor, key, error, BeginProvision(w.reg, r, actor, key, error));
    case Settle(j) =>
      if j in w.jobs && w.jobs[j].phase.Judged? {
        SettleKeepsOrderly(policy, w, j);
      }
    case Record(j, error) =>
      if j in w.jobs && w.jobs[j].phase.Cleared? {
        var job := w.jobs[j];
        BeginKeeps(w.reg, job.request, job.actor, job.key, error,
          BeginProvision(w.reg, job.request, job.actor, job.key, error));
      }
    case Join(j) =>
      if Joins(w, e) {
        EnlistKeeps(w.reg, w.jobs[j].request);
      }
    case Judge(j, r) =>
    case Crash(j) =>
    case _ => ServiceStep(policy, w, e, after);
  }

  lemma StrandingNeedsACrash(policy: Policy, w: World, e: Event, r: Id, after: World)
    requires Orderly(w) && !e.Crash? && after == Next(policy, w, e) && r < |w.reg.asks| && !Stranded(w, r)
    ensures !Stranded(after, r)
  {
    var slug := w.reg.asks[r].payload.slug;
    NextGrows(policy, w, e, after);
    if HasRow(w.reg.agents, slug) {
      RowsStay(w.reg, after.reg, slug);
    } else if w.reg.asks[r].stage == Applied {
      var j :| j in w.jobs && w.jobs[j].phase.Recorded? && w.reg.asks[w.jobs[j].request].payload.slug == slug;
      RecordedStays(policy, w, e, j, after);
    } else {
      NewlyApplied(policy, w, e, r, after);
    }
  }

  /** A recorded job stays until it enlists its agent, unless it crashes. */
  lemma RecordedStays(policy: Policy, w: World, e: Event, j: nat, after: World)
    requires Orderly(w) && !e.Crash? && after == Next(policy, w, e) && j in w.jobs && w.jobs[j].phase.Recorded?
    ensures (j in after.jobs && after.jobs[j] == w.jobs[j])
         || HasRow(after.reg.agents, w.reg.asks[w.jobs[j].request].payload.slug)
  {
    hide Sound;
    if e.Join? && e.job == j {
      EnlistKeeps(w.reg, w.jobs[j].request);
    }
  }

  /** A request becomes applied only by the first transaction of a provisioning that goes on. */
  lemma NewlyApplied(policy: Policy, w: World, e: Event, r: Id, after: World)
    requires Orderly(w) && !e.Crash? && after == Next(policy, w, e) && r < |w.reg.asks|
    requires w.reg.asks[r].stage != Applied
    ensures r < |after.reg.asks|
    ensures after.reg.asks[r].stage == Applied ==>
              exists j :: j in after.jobs && after.jobs[j].phase.Recorded? && after.jobs[j].request == r
  {
    match e
    case ByHand(j, r', actor, key, error) =>
      BeginKeeps(w.reg, r', actor, key, error, BeginProvision(w.reg, r', actor, key, error));
      if j !in w.jobs && after.reg.asks[r].stage == Applied {
        assert j in after.jobs && after.jobs[j].request == r;
      }
    case Settle(j) =>
      if j in w.jobs && w.jobs[j].phase.Judged? {
        SettleKeepsOrderly(policy, w, j);
      }
    case Record(j, error) =>
      if j in w.jobs && w.jobs[j].phase.Cleared? {
        var job := w.jobs[j];
        BeginKeeps(w.reg, job.request, job.actor, job.key, error,
          BeginProvision(w.reg, job.request, job.actor, job.key, error));
        if after.reg.asks[r].stage == Applied {
          assert j in after.jobs && after.jobs[j].request == r;
        }
      }
    case Join(j) =>
    case Judge(j, r') =>
    case _ => ServiceStep(policy, w, e, after);
  }

  /** The call retires request `r`, or is the first transaction of provisioning another one of its name. */
  predicate Relieves(w: World, r: Id, e: Event)
    requires r < |w.reg.asks|
  {
    match e
    case Retire(k, _, _, _) => k == r
    case ByHand(_, k, _, _, _) => k < |w.reg.asks| && k != r && w.reg.asks[k].payload.slug == w.reg.asks[r].payload.slug
    case Record(j, _) =>
      && j in w.jobs && w.jobs[j].request < |w.reg.asks| && w.jobs[j].request != r
      && w.reg.asks[w.jobs[j].request].payload.slug == w.reg.asks[r].payload.slug
    case _ => false
  }

  /** No call of the history relieves the request. */
  predicate Ignores(policy: Policy, start: World, history: seq<Event>, r: Id) {
    history == [] ||
    var init := history[..|history| - 1];
    && Ignores(policy, start, init, r)
    && (r < |Replay(policy, start, init).reg.asks| ==>
          !Relieves(Replay(policy, start, init), r, history[|history| - 1]))
  }

  /** Provisioning an applied request again changes nothing and leaves no agent to come. */
  lemma AppliedIsDone(reg: Registry, r: Id, actor: string, key: string, error: Option<string>)
    requires r < |reg.asks| && reg.asks[r].stage == Applied
    ensures var opening := BeginProvision(reg, r, actor, key, error);
            !opening.goesOn && opening.step.registry == reg
  {
  }

  lemma StrandedStep(policy: Policy, w: World, e: Event, r: Id, after: World)
    requires Orderly(w) && Stranded(w, r) && !Relieves(w, r, e) && after == Next(policy, w, e)
    ensures Stranded(after, r)
  {
    hide Sound;
    match e
    case ByHand(j, k, actor, key, error) =>
      BeginKeeps(w.reg, k, actor, key, error, BeginProvision(w.reg, k, actor, key, error));
      AppliedIsDone(w.reg, r, actor, key, error);
    case Settle(j) =>
      if j in w.jobs && w.jobs[j].phase.Judged? {
        SettleStranded(policy, w, j, r);
      }
    case Record(j, error) =>
      if j in w.jobs && w.jobs[j].phase.Cleared? {
        var job := w.jobs[j];
        BeginKeeps(w.reg, job.request, job.actor, job.key, error,
          BeginProvision(w.reg, job.request, job.actor, job.key, error));
        AppliedIsDone(w.reg, r, job.actor, job.key, error);
      }
    case Join(j) =>
      if Joins(w, e) {
        JoinStranded(w, j, r);
      }
    case Judge(j, k) =>
    case Crash(j) =>
    case _ => ServiceStranded(policy, w, e, r, after);
  }

  lemma SettleStranded(policy: Policy, w: World, j: nat, r: Id)
    requires Orderly(w) && Stranded(w, r) && j in w.jobs && w.jobs[j].phase.Judged?
    ensures Stranded(SettleStep(policy, w, j), r)
  {
    hide Sound, Evaluate;
  }

  lemma JoinStranded(w: World, j: nat, r: Id)
    requires Orderly(w) && Stranded(w, r) && j in w.jobs && w.jobs[j].phase.Recorded?
    ensures Stranded(JoinStep(w, j), r)
  {
    hide Sound;
    var after, slug := JoinStep(w, j), w.reg.asks[r].payload.slug;
    forall i | 0 <= i < |after.reg.agents| ensures after.reg.agents[i].slug != slug {
      assert i < |w.reg.agents| ==> w.reg.agents[i].slug != slug;
    }
  }

  lemma ServiceStranded(policy: Policy, w: World, e: Event, r: Id, after: World)
    requires Orderly(w) && Stranded(w, r) && !Relieves(w, r, e) && after == Next(policy, w, e)
    requires e.Request? || e.Resolve? || e.Retire? || e.TakeBack?
    ensures Stranded(after, r)
  {
    ServiceStep(policy, w, e, after);
    if e.TakeBack? {
      TakeBackModest(w.reg, e.request, e.actor, e.key, e.reason,
        RollbackAgent(w.reg, e.request, e.actor, e.key, e.reason));
    } else if e.Retire? {
      RetireModest(w.reg, e.request, e.actor, e.key, e.reason,
        RetireRequest(w.reg, e.request, e.actor, e.key, e.reason));
    }
  }

  /**
    A stranded request stays so, whatever happens, until it is retired or another request of the same name is
    provisioned; the policy makes nothing of it at any time.
   */
  lemma {:induction false} StrandedStays(policy: Policy, start: World, history: seq<Event>, r: Id, end: World)
    requires Orderly(start) && Stranded(start, r) && Ignores(policy, start, history, r)
    requires end == Replay(policy, start, history)
    ensures Stranded(end, r) && JudgementOf(policy, end.reg, r) == Ignored
  {
    hide Next, Orderly, Relieves;
    if history != [] {
      var init, last := history[..|history| - 1], history[|history| - 1];
      var before := Replay(policy, start, init);
      StrandedStays(policy, start, init, r, before);
      EveryWorldIsOrderly(policy, start, init);
      StrandedStep(policy, before, last, r, end);
    }
  }

  /** Provisioning an applied request again is refused for a missing agent exactly under its own key and without one. */
  lemma RefusedExactly(reg: Registry, r: Id, actor: string, key: string)
    requires r < |reg.asks| && reg.asks[r].stage == Applied
    ensures Provision(reg, r, actor, key, None).registry == reg
    ensures Provision(reg, r, actor, key, None).out == Refused("provisioning_state_missing") <==>
              AppliedWith(reg.asks[r], key) && !HasRow(reg.agents, reg.asks[r].payload.slug)
  {
    var slug := reg.asks[r].payload.slug;
    match Last(reg.agents, WithSlug(slug))
    case Some(a) => assert reg.agents[a].slug == slug;
    case None => assert forall i :: 0 <= i < |reg.agents| ==> !WithSlug(slug)(reg.agents[i]);
  }
}
