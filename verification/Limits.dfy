/** Budget resolution: the tightest of the configured, the scoped and the task's own limits. */
module Limits {
  import opened Tables
  import opened Records

  datatype ControlLimits = ControlLimits(
    windowSeconds: int,
    softTokens: Option<int>,
    hardTokens: Option<int>,
    maxConcurrentRuns: int,
    maxFanOut: int,
    maxRetries: int,
    circuitThreshold: int,
    circuitCooldownSeconds: int)

  /** Whose limits are being resolved. */
  datatype Scope = Scope(worker: string, profile: string, category: string, budget: Budget)

  const LIMITS: seq<Limit> :=
    [WindowSeconds, SoftTokens, HardTokens, MaxConcurrentRuns,
     MaxFanOut, MaxRetries, CircuitThreshold, CircuitCooldown]

  function FieldName(limit: Limit): string {
    match limit
    case WindowSeconds => "window_seconds"
    case SoftTokens => "soft_token_limit"
    case HardTokens => "hard_token_limit"
    case MaxConcurrentRuns => "max_concurrent_runs"
    case MaxFanOut => "max_fan_out"
    case MaxRetries => "max_retries"
    case CircuitThreshold => "circuit_failure_threshold"
    case CircuitCooldown => "circuit_cooldown_seconds"
  }

  function Default(cfg: Settings, limit: Limit): int {
    match limit
    case WindowSeconds => cfg.windowSeconds
    case SoftTokens => cfg.softTokens
    case HardTokens => cfg.hardTokens
    case MaxConcurrentRuns => cfg.maxConcurrentRuns
    case MaxFanOut => cfg.maxFanOut
    case MaxRetries => cfg.maxRetries
    case CircuitThreshold => cfg.circuitThreshold
    case CircuitCooldown => cfg.circuitCooldownSeconds
  }

  predicate Matches(cfg: Settings, who: Scope, row: BudgetRow) {
    (row.scope, row.scopeKey) in
      {("global", "*"), ("project", cfg.project), ("agent", who.worker),
       ("profile", who.profile), ("category", who.category)}
  }

  /** Every value that may bound a limit: the setting, each enabled matching row, the task. */
  ghost predicate Candidate(cfg: Settings, rows: seq<BudgetRow>, who: Scope, limit: Limit, v: int) {
    || v == Default(cfg, limit)
    || (exists i :: 0 <= i < |rows| && Offers(cfg, who, rows[i], limit, v))
    || Integer(JsonAt(who.budget, FieldName(limit))) == Some(v)
  }

  predicate Offers(cfg: Settings, who: Scope, row: BudgetRow, limit: Limit, v: int) {
    row.enabled && Matches(cfg, who, row) && limit in row.limits && row.limits[limit] == v
  }

  ghost predicate Tightest(cfg: Settings, rows: seq<BudgetRow>, who: Scope, limit: Limit, v: int) {
    && Candidate(cfg, rows, who, limit, v)
    && forall w :: Candidate(cfg, rows, who, limit, w) ==> v <= w
  }

  function MinLimit(current: int, candidate: Option<int>): int {
    match candidate
    case None => current
    case Some(v) => Min(current, v)
  }

  function RowLimit(cfg: Settings, who: Scope, row: BudgetRow, limit: Limit): Option<int> {
    if row.enabled && Matches(cfg, who, row) && limit in row.limits then Some(row.limits[limit]) else None
  }

  function AfterRows(cfg: Settings, rows: seq<BudgetRow>, who: Scope, limit: Limit): int {
    if rows == [] then Default(cfg, limit)
    else MinLimit(AfterRows(cfg, rows[..|rows| - 1], who, limit), RowLimit(cfg, who, rows[|rows| - 1], limit))
  }

  function Resolved(cfg: Settings, rows: seq<BudgetRow>, who: Scope, limit: Limit): int {
    MinLimit(AfterRows(cfg, rows, who, limit), Integer(JsonAt(who.budget, FieldName(limit))))
  }

  /** `value or fallback`: zero counts as unset. */
  function OrDefault(value: int, fallback: int): int {
    if value == 0 then fallback else value
  }

  function LimitsFor(cfg: Settings, rows: seq<BudgetRow>, who: Scope): ControlLimits {
    ControlLimits(
      OrDefault(Resolved(cfg, rows, who, WindowSeconds), cfg.windowSeconds),
      Some(Resolved(cfg, rows, who, SoftTokens)),
      Some(Resolved(cfg, rows, who, HardTokens)),
      OrDefault(Resolved(cfg, rows, who, MaxConcurrentRuns), 1),
      OrDefault(Resolved(cfg, rows, who, MaxFanOut), 1),
      Resolved(cfg, rows, who, MaxRetries),
      OrDefault(Resolved(cfg, rows, who, CircuitThreshold), 1),
      OrDefault(Resolved(cfg, rows, who, CircuitCooldown), 1))
  }

  lemma {:induction false} AfterRowsIsTightest(cfg: Settings, rows: seq<BudgetRow>, who: Scope, limit: Limit)
    ensures var v := AfterRows(cfg, rows, who, limit);
            && (v == Default(cfg, limit) || exists i :: 0 <= i < |rows| && Offers(cfg, who, rows[i], limit, v))
            && v <= Default(cfg, limit)
            && (forall i, w :: 0 <= i < |rows| && Offers(cfg, who, rows[i], limit, w) ==> v <= w)
  {
    if rows != [] {
      var init := rows[..|rows| - 1];
      AfterRowsIsTightest(cfg, init, who, limit);
      var u, v := AfterRows(cfg, init, who, limit), AfterRows(cfg, rows, who, limit);
      if v == u {
        if u != Default(cfg, limit) {
          var i :| 0 <= i < |init| && Offers(cfg, who, init[i], limit, u);
          assert Offers(cfg, who, rows[i], limit, v);
        }
      } else {
        assert Offers(cfg, who, rows[|rows| - 1], limit, v);
      }
      forall i, w | 0 <= i < |rows| && Offers(cfg, who, rows[i], limit, w) ensures v <= w {
        if i < |rows| - 1 {
          assert init[i] == rows[i];
        }
      }
    }
  }

  /** The resolved limit is the least candidate, whatever path the rows were folded along. */
  lemma ResolvedIsTightest(cfg: Settings, rows: seq<BudgetRow>, who: Scope, limit: Limit)
    ensures Tightest(cfg, rows, who, limit, Resolved(cfg, rows, who, limit))
  {
    AfterRowsIsTightest(cfg, rows, who, limit);
  }

  /** Resolution reads the budgets table as a set: neither order nor repetition matters. */
  lemma RowOrderIsIrrelevant(cfg: Settings, a: seq<BudgetRow>, b: seq<BudgetRow>, who: Scope)
    requires forall row :: row in a <==> row in b
    ensures LimitsFor(cfg, a, who) == LimitsFor(cfg, b, who)
  {
    forall limit: Limit ensures Resolved(cfg, a, who, limit) == Resolved(cfg, b, who, limit) {
      ResolvedIsTightest(cfg, a, who, limit);
      ResolvedIsTightest(cfg, b, who, limit);
      MoreRowsNeverRaise(cfg, a, b, who, limit);
      MoreRowsNeverRaise(cfg, b, a, who, limit);
    }
  }

  lemma MoreRowsNeverRaise(cfg: Settings, fewer: seq<BudgetRow>, more: seq<BudgetRow>, who: Scope, limit: Limit)
    requires forall row :: row in fewer ==> row in more
    ensures Resolved(cfg, more, who, limit) <= Resolved(cfg, fewer, who, limit)
  {
    ResolvedIsTightest(cfg, fewer, who, limit);
    ResolvedIsTightest(cfg, more, who, limit);
    var v := Resolved(cfg, fewer, who, limit);
    if i :| 0 <= i < |fewer| && Offers(cfg, who, fewer[i], limit, v) {
      assert fewer[i] in more;
      var j :| 0 <= j < |more| && more[j] == fewer[i];
      assert Offers(cfg, who, more[j], limit, v);
    }
    assert Candidate(cfg, more, who, limit, v);
  }

  /** Adding budget rows tightens every effective limit but the window, which a zero resets to its default. */
  lemma BudgetsOnlyTighten(cfg: Settings, fewer: seq<BudgetRow>, more: seq<BudgetRow>, who: Scope)
    requires forall row :: row in fewer ==> row in more
    ensures var a, b := LimitsFor(cfg, fewer, who), LimitsFor(cfg, more, who);
            && b.softTokens.value <= a.softTokens.value
            && b.hardTokens.value <= a.hardTokens.value
            && b.maxConcurrentRuns <= a.maxConcurrentRuns <= Max(1, cfg.maxConcurrentRuns)
            && b.maxFanOut <= a.maxFanOut <= Max(1, cfg.maxFanOut)
            && b.maxRetries <= a.maxRetries <= cfg.maxRetries
            && b.circuitThreshold <= a.circuitThreshold
            && b.circuitCooldownSeconds <= a.circuitCooldownSeconds
            && (b.windowSeconds <= a.windowSeconds || b.windowSeconds == cfg.windowSeconds)
  {
    forall limit: Limit
      ensures Resolved(cfg, more, who, limit) <= Resolved(cfg, fewer, who, limit) <= Default(cfg, limit)
    {
      MoreRowsNeverRaise(cfg, fewer, more, who, limit);
      AfterRowsIsTightest(cfg, fewer, who, limit);
    }
  }

  /** The window grows exactly when the added rows bring it to zero, which reads as unset. */
  lemma WindowGrowsExactlyAtZero(cfg: Settings, fewer: seq<BudgetRow>, more: seq<BudgetRow>, who: Scope)
    requires forall row :: row in fewer ==> row in more
    ensures var a, b := LimitsFor(cfg, fewer, who), LimitsFor(cfg, more, who);
            a.windowSeconds < b.windowSeconds <==>
            && Resolved(cfg, more, who, WindowSeconds) == 0
            && Resolved(cfg, fewer, who, WindowSeconds) != 0
            && a.windowSeconds < cfg.windowSeconds
  {
    MoreRowsNeverRaise(cfg, fewer, more, who, WindowSeconds);
    AfterRowsIsTightest(cfg, fewer, who, WindowSeconds);
  }

  function Offer(offers: map<Limit, int>, limit: Limit): Option<int> {
    if limit in offers then Some(offers[limit]) else None
  }

  function TaskOffers(budget: Budget): map<Limit, int> {
    map limit: Limit | Integer(JsonAt(budget, FieldName(limit))).Some?
      :: Integer(JsonAt(budget, FieldName(limit))).value
  }

  /** The inner loop: narrow every field by what one budget offers for it. */
  method Narrow(values: map<Limit, int>, offers: map<Limit, int>) returns (narrowed: map<Limit, int>)
    requires forall limit: Limit :: limit in values
    ensures narrowed == map limit | limit in values :: MinLimit(values[limit], Offer(offers, limit))
  {
    narrowed := values;
    for k := 0 to |LIMITS|
      invariant narrowed.Keys == values.Keys
      invariant forall limit :: limit in LIMITS[..k] ==>
                  narrowed[limit] == MinLimit(values[limit], Offer(offers, limit))
      invariant forall limit :: limit in values && limit !in LIMITS[..k] ==> narrowed[limit] == values[limit]
    {
      var limit := LIMITS[k];
      NoRepeat(k);
      narrowed := narrowed[limit := MinLimit(narrowed[limit], Offer(offers, limit))];
      assert LIMITS[..k + 1] == LIMITS[..k] + [limit];
    }
    assert LIMITS[..|LIMITS|] == LIMITS;
    AllListed();
  }

  /** The service: every enabled matching row narrows every field, then the task's own budget does. */
  method ResolveLimits(cfg: Settings, rows: seq<BudgetRow>, who: Scope) returns (limits: ControlLimits)
    ensures limits == LimitsFor(cfg, rows, who)
  {
    var values: map<Limit, int> := map limit: Limit | true :: Default(cfg, limit);
    for i := 0 to |rows|
      invariant forall limit: Limit :: limit in values && values[limit] == AfterRows(cfg, rows[..i], who, limit)
    {
      assert rows[..i + 1][..i] == rows[..i];
      if rows[i].enabled && Matches(cfg, who, rows[i]) {
        values := Narrow(values, rows[i].limits);
      }
    }
    assert rows[..|rows|] == rows;
    values := Narrow(values, TaskOffers(who.budget));
    assert forall limit: Limit :: values[limit] == Resolved(cfg, rows, who, limit);
    limits := ControlLimits(
      OrDefault(values[WindowSeconds], cfg.windowSeconds),
      Some(values[SoftTokens]),
      Some(values[HardTokens]),
      OrDefault(values[MaxConcurrentRuns], 1),
      OrDefault(values[MaxFanOut], 1),
      values[MaxRetries],
      OrDefault(values[CircuitThreshold], 1),
      OrDefault(values[CircuitCooldown], 1));
  }

  lemma AllListed()
    ensures forall limit: Limit :: limit in LIMITS
  {
    forall limit: Limit ensures limit in LIMITS {
      var at := match limit
        case WindowSeconds => 0 case SoftTokens => 1 case HardTokens => 2 case MaxConcurrentRuns => 3
        case MaxFanOut => 4 case MaxRetries => 5 case CircuitThreshold => 6 case CircuitCooldown => 7;
      assert LIMITS[at] == limit;
    }
  }

  lemma NoRepeat(k: nat)
    requires k < |LIMITS|
    ensures LIMITS[k] !in LIMITS[..k] && LIMITS[k] in LIMITS
  {
  }
}
