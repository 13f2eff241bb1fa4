/** Usage reports: one pass over the ledger, grouped by whatever key the report asks for. */
module UsageSummary {
  import opened Tables
  import opened Records
  import opened Controls

  // ---- The declarative report -------------------------------------------------------------------

  /** What a report adds up, the counts among it as sums of ones. */
  datatype Quantity =
    | Runs
    | Ending(outcome: Status)
    | Known(token: Token)
    | Unknown(token: Token)
    | KnownCost
    | UnknownCosts
    | DurationMs
    | ApiCalls
    | ApiCallsUnknown

  function If(holds: bool): real {
    if holds then 1.0 else 0.0
  }

  /** What one entry contributes. */
  function Amount(e: LedgerEntry, q: Quantity): real {
    match q
    case Runs => 1.0
    case Ending(outcome) => If(e.outcome == outcome)
    case Known(token) => e.usage.Get(token).GetOr(0) as real
    case Unknown(token) => If(e.usage.Get(token).None?)
    case KnownCost => e.usage.actualCost.GetOr(0.0)
    case UnknownCosts => If(e.usage.actualCost.None?)
    case DurationMs => e.durationMs.GetOr(0) as real
    case ApiCalls => e.usage.apiCalls.GetOr(0) as real
    case ApiCallsUnknown => If(e.usage.apiCalls.None?)
  }

  function Sum(entries: seq<LedgerEntry>, p: LedgerEntry -> bool, q: Quantity): real {
    if entries == [] then 0.0
    else
      var e := entries[|entries| - 1];
      Sum(entries[..|entries| - 1], p, q) + (if p(e) then Amount(e, q) else 0.0)
  }

  lemma SumAppend(entries: seq<LedgerEntry>, e: LedgerEntry, p: LedgerEntry -> bool, q: Quantity)
    ensures Sum(entries + [e], p, q) == Sum(entries, p, q) + (if p(e) then Amount(e, q) else 0.0)
  {
    assert (entries + [e])[..|entries|] == entries;
  }

  type Key = LedgerEntry -> string

  function In(key: Key, k: string): LedgerEntry -> bool {
    (e: LedgerEntry) => key(e) == k
  }

  function Everything(): LedgerEntry -> bool {
    (e: LedgerEntry) => true
  }

  datatype Group = Group(
    runs: nat,
    outcomes: map<Status, nat>,
    known: map<Token, nat>,
    unknown: map<Token, nat>,
    knownCost: real,
    unknownCosts: nat,
    durationMs: int,
    apiCalls: nat,
    apiCallsUnknown: nat)

  const NO_TOKENS: map<Token, nat> := map t: Token | true :: 0

  const NEW_GROUP: Group := Group(0, map[], NO_TOKENS, NO_TOKENS, 0.0, 0, 0, 0, 0)

  function At<K>(counts: map<K, nat>, k: K): nat {
    if k in counts then counts[k] else 0
  }

  /** What the group says. */
  function Measured(g: Group, q: Quantity): real {
    match q
    case Runs => g.runs as real
    case Ending(outcome) => At(g.outcomes, outcome) as real
    case Known(token) => At(g.known, token) as real
    case Unknown(token) => At(g.unknown, token) as real
    case KnownCost => g.knownCost
    case UnknownCosts => g.unknownCosts as real
    case DurationMs => g.durationMs as real
    case ApiCalls => g.apiCalls as real
    case ApiCallsUnknown => g.apiCallsUnknown as real
  }

  /** Every count of tokens is there, and the outcomes that occurred. */
  ghost predicate Shaped(g: Group) {
    && (forall t: Token :: t in g.known && t in g.unknown)
    && forall s :: s in g.outcomes ==> g.outcomes[s] > 0
  }

  /** `g` says about key `k` exactly what the entries say. */
  ghost predicate Reports(entries: seq<LedgerEntry>, key: Key, k: string, g: Group) {
    Shaped(g) && forall q: Quantity :: Measured(g, q) == Sum(entries, In(key, k), q)
  }

  /** The keys in the order in which they first occur. */
  function Keys(entries: seq<LedgerEntry>, key: Key): seq<string> {
    if entries == [] then []
    else
      var rest, k := Keys(entries[..|entries| - 1], key), key(entries[|entries| - 1]);
      if k in rest then rest else rest + [k]
  }

  lemma {:induction false} KeysOccur(entries: seq<LedgerEntry>, key: Key)
    ensures forall k :: k in Keys(entries, key) <==> exists e :: e in entries && key(e) == k
    ensures forall i, j :: 0 <= i < j < |Keys(entries, key)| ==> Keys(entries, key)[i] != Keys(entries, key)[j]
  {
    if entries != [] {
      var init, last := entries[..|entries| - 1], entries[|entries| - 1];
      KeysOccur(init, key);
      assert entries == init + [last];
    }
  }

  // ---- The pass -------------------------------------------------------------------------------

  /** One field of the loop over the token fields. */
  method AddToken(known: map<Token, nat>, unknown: map<Token, nat>, field: Token, value: Option<nat>)
    returns (known': map<Token, nat>, unknown': map<Token, nat>)
    requires field in known && field in unknown
    ensures known' == known[field := known[field] + value.GetOr(0)]
    ensures unknown' == unknown[field := unknown[field] + (if value.None? then 1 else 0)]
  {
    if value.None? {
      known', unknown' := known, unknown[field := unknown[field] + 1];
      assert known == known[field := known[field]];
    } else {
      known', unknown' := known[field := known[field] + value.value], unknown;
      assert unknown == unknown[field := unknown[field]];
    }
  }

  /** The counts once the fields `done` are added. */
  ghost predicate Partly(
    g: Group, usage: Usage, done: seq<Token>, known: map<Token, nat>, unknown: map<Token, nat>)
    requires forall t: Token :: t in g.known && t in g.unknown
  {
    forall t: Token ::
      && t in known && known[t] == g.known[t] + (if t in done then usage.Get(t).GetOr(0) else 0)
      && t in unknown && unknown[t] == g.unknown[t] + (if t in done && usage.Get(t).None? then 1 else 0)
  }

  method AddTokens(g: Group, usage: Usage) returns (known: map<Token, nat>, unknown: map<Token, nat>)
    requires forall t: Token :: t in g.known && t in g.unknown
    ensures Partly(g, usage, TOKENS, known, unknown)
  {
    known, unknown := g.known, g.unknown;
    for i := 0 to |TOKENS|
      invariant Partly(g, usage, TOKENS[..i], known, unknown)
    {
      ghost var before := (known, unknown);
      known, unknown := AddToken(known, unknown, TOKENS[i], usage.Get(TOKENS[i]));
      OneTokenMore(g, usage, i, before.0, before.1, known, unknown);
    }
    assert TOKENS[..|TOKENS|] == TOKENS;
  }

  lemma OneTokenMore(
    g: Group, usage: Usage, i: nat, known: map<Token, nat>, unknown: map<Token, nat>, known': map<Token, nat>,
    unknown': map<Token, nat>)
    requires i < |TOKENS| && forall t: Token :: t in g.known && t in g.unknown
    requires Partly(g, usage, TOKENS[..i], known, unknown)
    requires known' == known[TOKENS[i] := known[TOKENS[i]] + usage.Get(TOKENS[i]).GetOr(0)]
    requires unknown' == unknown[TOKENS[i] := unknown[TOKENS[i]] + (if usage.Get(TOKENS[i]).None? then 1 else 0)]
    ensures Partly(g, usage, TOKENS[..i + 1], known', unknown')
  {
    TokensSoFar(i);
  }

  lemma TokensSoFar(i: nat)
    requires i < |TOKENS|
    ensures TOKENS[i] !in TOKENS[..i]
    ensures forall t: Token :: t in TOKENS[..i + 1] <==> t in TOKENS[..i] || t == TOKENS[i]
  {
    assert TOKENS[..i + 1] == TOKENS[..i] + [TOKENS[i]];
  }

  lemma AllTokens()
    ensures forall t: Token :: t in TOKENS
  {
    forall t: Token ensures t in TOKENS {
      assert t == TOKENS[0] || t == TOKENS[1] || t == TOKENS[2] || t == TOKENS[3] || t == TOKENS[4];
    }
  }

  /** `after` is the group `g` with one more entry. */
  ghost predicate Added(g: Group, e: LedgerEntry, after: Group) {
    Shaped(after) && forall q: Quantity :: Measured(after, q) == Measured(g, q) + Amount(e, q)
  }

  method AddEntry(g: Group, e: LedgerEntry) returns (after: Group)
    requires Shaped(g)
    ensures Added(g, e, after)
  {
    hide Added, Measured, Amount, Partly;
    var known, unknown := AddTokens(g, e.usage);
    var seen := if e.outcome in g.outcomes then g.outcomes[e.outcome] else 0;
    var outcomes := g.outcomes[e.outcome := seen + 1];
    var knownCost, unknownCosts := g.knownCost, g.unknownCosts;
    if e.usage.actualCost.None? {
      unknownCosts := unknownCosts + 1;
    } else {
      knownCost := knownCost + e.usage.actualCost.value;
    }
    var durationMs := g.durationMs;
    if e.durationMs.Some? {
      durationMs := durationMs + e.durationMs.value;
    }
    var apiCalls, apiCallsUnknown := g.apiCalls, g.apiCallsUnknown;
    if e.usage.apiCalls.None? {
      apiCallsUnknown := apiCallsUnknown + 1;
    } else {
      apiCalls := apiCalls + e.usage.apiCalls.value;
    }
    after := Group(
      g.runs + 1, outcomes, known, unknown, knownCost, unknownCosts, durationMs, apiCalls, apiCallsUnknown);
    EntryAdded(g, e, after);
  }

  lemma EntryAdded(g: Group, e: LedgerEntry, after: Group)
    requires Shaped(g) && after.runs == g.runs + 1
    requires after.outcomes == g.outcomes[e.outcome := At(g.outcomes, e.outcome) + 1]
    requires Partly(g, e.usage, TOKENS, after.known, after.unknown)
    requires after.knownCost == g.knownCost + e.usage.actualCost.GetOr(0.0)
    requires after.unknownCosts == g.unknownCosts + (if e.usage.actualCost.None? then 1 else 0)
    requires after.durationMs == g.durationMs + e.durationMs.GetOr(0)
    requires after.apiCalls == g.apiCalls + e.usage.apiCalls.GetOr(0)
    requires after.apiCallsUnknown == g.apiCallsUnknown + (if e.usage.apiCalls.None? then 1 else 0)
    ensures Added(g, e, after)
  {
    AllTokens();
    forall q: Quantity ensures Measured(after, q) == Measured(g, q) + Amount(e, q) {
      match q
      case Known(token) => assert token in TOKENS;
      case Unknown(token) => assert token in TOKENS;
      case _ =>
    }
  }

  lemma {:induction false} NothingIn(entries: seq<LedgerEntry>, key: Key, k: string, q: Quantity)
    requires forall e :: e in entries ==> key(e) != k
    ensures Sum(entries, In(key, k), q) == 0.0
  {
    if entries != [] {
      NothingIn(entries[..|entries| - 1], key, k, q);
    }
  }

  lemma ReportsNothing(entries: seq<LedgerEntry>, key: Key, k: string)
    requires forall e :: e in entries ==> key(e) != k
    ensures Reports(entries, key, k, NEW_GROUP)
  {
    forall q: Quantity ensures Measured(NEW_GROUP, q) == Sum(entries, In(key, k), q) {
      NothingIn(entries, key, k, q);
    }
  }

  lemma EntryReported(entries: seq<LedgerEntry>, e: LedgerEntry, key: Key, k: string, g: Group, after: Group)
    requires Reports(entries, key, k, g)
    requires if key(e) == k then Added(g, e, after) else after == g
    ensures Reports(entries + [e], key, k, after)
  {
    hide Amount, Measured, Shaped;
    forall q: Quantity ensures Measured(after, q) == Sum(entries + [e], In(key, k), q) {
      SumAppend(entries, e, In(key, k), q);
    }
  }

  ghost predicate AllReport(entries: seq<LedgerEntry>, key: Key, order: seq<string>, groups: map<string, Group>) {
    && order == Keys(entries, key)
    && (forall k :: k in groups <==> k in order)
    && forall k :: k in groups ==> Reports(entries, key, k, groups[k])
  }

  function Current(groups: map<string, Group>, k: string): Group {
    if k in groups then groups[k] else NEW_GROUP
  }

  lemma CurrentReports(
    entries: seq<LedgerEntry>, key: Key, order: seq<string>, groups: map<string, Group>, k: string)
    requires AllReport(entries, key, order, groups)
    ensures Reports(entries, key, k, Current(groups, k))
  {
    hide Reports;
    if k !in groups {
      KeysOccur(entries, key);
      ReportsNothing(entries, key, k);
    }
  }

  lemma NextReports(
    entries: seq<LedgerEntry>, e: LedgerEntry, key: Key, order: seq<string>, groups: map<string, Group>, group: Group)
    requires AllReport(entries, key, order, groups) && Added(Current(groups, key(e)), e, group)
    ensures AllReport(entries + [e], key, if key(e) in groups then order else order + [key(e)], groups[key(e) := group])
  {
    hide Reports, Added, Current;
    assert (entries + [e])[..|entries|] == entries;
    CurrentReports(entries, key, order, groups, key(e));
    EntryReported(entries, e, key, key(e), Current(groups, key(e)), group);
    forall k | k in groups && k != key(e) ensures Reports(entries + [e], key, k, groups[k]) {
      EntryReported(entries, e, key, k, groups[k], groups[k]);
    }
  }

  lemma ReportsAreShaped(entries: seq<LedgerEntry>, key: Key, order: seq<string>, groups: map<string, Group>, k: string)
    requires AllReport(entries, key, order, groups)
    ensures Shaped(Current(groups, k))
  {
    CurrentReports(entries, key, order, groups, k);
  }

  /** `summarize_usage`: the groups in order of first occurrence, each reporting exactly its entries. */
  method SummarizeUsage(entries: seq<LedgerEntry>, key: Key) returns (order: seq<string>, groups: map<string, Group>)
    ensures AllReport(entries, key, order, groups)
  {
    hide Reports, Added, Shaped;
    order, groups := [], map[];
    for i := 0 to |entries|
      invariant AllReport(entries[..i], key, order, groups)
    {
      var k := key(entries[i]);
      var group := NEW_GROUP;
      if k in groups {
        group := groups[k];
      }
      ReportsAreShaped(entries[..i], key, order, groups, k);
      var added := AddEntry(group, entries[i]);
      NextReports(entries[..i], entries[i], key, order, groups, added);
      assert entries[..i + 1] == entries[..i] + [entries[i]];
      if k !in groups {
        order := order + [k];
      }
      groups := groups[k := added];
    }
    assert entries[..|entries|] == entries;
  }

  /** A rendered total: unknown as soon as one entry's count is. */
  function Total(g: Group, token: Token): Option<nat>
    requires token in g.known && token in g.unknown
  {
    if g.unknown[token] > 0 then None else Some(g.known[token])
  }

  function ActualCost(g: Group): Option<real> {
    if g.unknownCosts > 0 then None else Some(g.knownCost)
  }

  function CostStatus(g: Group): string {
    if g.unknownCosts == g.runs then "unknown" else if g.unknownCosts > 0 then "partial" else "known"
  }

  // ---- Withheld totals --------------------------------------------------------------------------

  /** A sum of amounts that are never negative is positive exactly when one of them is. */
  lemma {:induction false} SumFinds(entries: seq<LedgerEntry>, p: LedgerEntry -> bool, q: Quantity)
    requires forall e :: Amount(e, q) >= 0.0
    ensures Sum(entries, p, q) >= 0.0
    ensures Sum(entries, p, q) > 0.0 <==> exists e :: e in entries && p(e) && Amount(e, q) > 0.0
  {
    if entries != [] {
      var init, last := entries[..|entries| - 1], entries[|entries| - 1];
      SumFinds(init, p, q);
      assert entries == init + [last];
    }
  }

  /** A quantity that never exceeds another one sums to as much exactly when it is the same for every entry. */
  lemma {:induction false} SumAgrees(entries: seq<LedgerEntry>, p: LedgerEntry -> bool, q: Quantity, r: Quantity)
    requires forall e :: Amount(e, q) <= Amount(e, r)
    ensures Sum(entries, p, q) <= Sum(entries, p, r)
    ensures Sum(entries, p, q) == Sum(entries, p, r) <==>
              forall e :: e in entries && p(e) ==> Amount(e, q) == Amount(e, r)
  {
    hide Amount;
    if entries != [] {
      var init, last := entries[..|entries| - 1], entries[|entries| - 1];
      SumAgrees(init, p, q, r);
      assert entries == init + [last];
    }
  }

  /** A total, or the cost, is withheld exactly when some entry of the group does not know its count. */
  lemma TotalsAreNullExactly(entries: seq<LedgerEntry>, key: Key, k: string, g: Group, token: Token)
    requires Reports(entries, key, k, g)
    ensures Total(g, token).None? <==> exists e :: e in entries && key(e) == k && e.usage.Get(token).None?
    ensures Total(g, token).Some? ==> Total(g, token).value as real == Sum(entries, In(key, k), Known(token))
    ensures ActualCost(g).None? <==> exists e :: e in entries && key(e) == k && e.usage.actualCost.None?
    ensures ActualCost(g).Some? ==> ActualCost(g).value == Sum(entries, In(key, k), KnownCost)
    ensures CostStatus(g) == "unknown" <==> forall e :: e in entries && key(e) == k ==> e.usage.actualCost.None?
    ensures CostStatus(g) == "partial" <==>
              && (exists e :: e in entries && key(e) == k && e.usage.actualCost.None?)
              && (exists e :: e in entries && key(e) == k && e.usage.actualCost.Some?)
  {
    assert forall q: Quantity :: Measured(g, q) == Sum(entries, In(key, k), q);
    assert Measured(g, Known(token)) == Total(g, token).GetOr(g.known[token]) as real;
    SumFinds(entries, In(key, k), Unknown(token));
    assert Measured(g, Unknown(token)) == g.unknown[token] as real;
    SumFinds(entries, In(key, k), UnknownCosts);
    assert Measured(g, UnknownCosts) == g.unknownCosts as real && Measured(g, KnownCost) == g.knownCost;
    SumAgrees(entries, In(key, k), UnknownCosts, Runs);
    assert Measured(g, Runs) == g.runs as real;
  }

  // ---- Conservation ---------------------------------------------------------------------------

  function SumKeys(keys: seq<string>, f: string -> real): real {
    if keys == [] then 0.0 else SumKeys(keys[..|keys| - 1], f) + f(keys[|keys| - 1])
  }

  lemma {:induction false} SumKeysSame(keys: seq<string>, f: string -> real, g: string -> real)
    requires forall k :: k in keys ==> f(k) == g(k)
    ensures SumKeys(keys, f) == SumKeys(keys, g)
  {
    if keys != [] {
      SumKeysSame(keys[..|keys| - 1], f, g);
    }
  }

  /** One key gains `d`; the keys are distinct. */
  lemma {:induction false} SumKeysGain(keys: seq<string>, f: string -> real, g: string -> real, at: string, d: real)
    requires forall i, j :: 0 <= i < j < |keys| ==> keys[i] != keys[j]
    requires at in keys && g(at) == f(at) + d && forall k :: k in keys && k != at ==> g(k) == f(k)
    ensures SumKeys(keys, g) == SumKeys(keys, f) + d
  {
    var init := keys[..|keys| - 1];
    if keys[|keys| - 1] == at {
      SumKeysSame(init, f, g);
    } else {
      SumKeysGain(init, f, g, at, d);
    }
  }

  function PerKey(entries: seq<LedgerEntry>, key: Key, q: Quantity): string -> real {
    (k: string) => Sum(entries, In(key, k), q)
  }

  lemma PerKeyGrows(entries: seq<LedgerEntry>, key: Key, q: Quantity, k: string)
    requires entries != []
    ensures var init, e := entries[..|entries| - 1], entries[|entries| - 1];
            PerKey(entries, key, q)(k) == PerKey(init, key, q)(k) + (if k == key(e) then Amount(e, q) else 0.0)
  {
    hide Amount;
  }

  lemma NothingPerKey(entries: seq<LedgerEntry>, key: Key, k: string, q: Quantity)
    requires forall e :: e in entries ==> key(e) != k
    ensures PerKey(entries, key, q)(k) == 0.0
  {
    NothingIn(entries, key, k, q);
  }

  /** The keys partition the entries. */
  lemma {:induction false} KeysPartition(entries: seq<LedgerEntry>, key: Key, q: Quantity)
    ensures SumKeys(Keys(entries, key), PerKey(entries, key, q)) == Sum(entries, Everything(), q)
  {
    hide Amount, PerKey;
    if entries != [] {
      var init, e := entries[..|entries| - 1], entries[|entries| - 1];
      var keys, k := Keys(init, key), key(e);
      KeysPartition(init, key, q);
      KeysOccur(init, key);
      forall j ensures PerKey(entries, key, q)(j) == PerKey(init, key, q)(j) + (if j == k then Amount(e, q) else 0.0) {
        PerKeyGrows(entries, key, q, j);
      }
      if k in keys {
        SumKeysGain(keys, PerKey(init, key, q), PerKey(entries, key, q), k, Amount(e, q));
      } else {
        NothingPerKey(init, key, k, q);
        SumKeysSame(keys, PerKey(init, key, q), PerKey(entries, key, q));
        assert Keys(entries, key)[..|keys|] == keys;
      }
    }
  }

  /** The column of a report. */
  function Column(groups: map<string, Group>, q: Quantity): string -> real {
    (k: string) => Measured(Current(groups, k), q)
  }

  /** Nothing is lost or counted twice: each column of a report adds up to the sum over all its entries. */
  lemma GroupsPartition(
    entries: seq<LedgerEntry>, key: Key, order: seq<string>, groups: map<string, Group>, q: Quantity)
    requires AllReport(entries, key, order, groups)
    ensures SumKeys(order, Column(groups, q)) == Sum(entries, Everything(), q)
  {
    hide Measured;
    KeysPartition(entries, key, q);
    forall k | k in order ensures Column(groups, q)(k) == PerKey(entries, key, q)(k) {
      CurrentReports(entries, key, order, groups, k);
    }
    SumKeysSame(order, Column(groups, q), PerKey(entries, key, q));
  }

  /** Reports over the same entries agree on every grand total, however they group them. */
  lemma GrandTotalsAgree(
    entries: seq<LedgerEntry>, key: Key, order: seq<string>, groups: map<string, Group>, other: Key,
    otherOrder: seq<string>, otherGroups: map<string, Group>, q: Quantity)
    requires AllReport(entries, key, order, groups) && AllReport(entries, other, otherOrder, otherGroups)
    ensures SumKeys(order, Column(groups, q)) == SumKeys(otherOrder, Column(otherGroups, q))
  {
    GroupsPartition(entries, key, order, groups, q);
    GroupsPartition(entries, other, otherOrder, otherGroups, q);
  }

  // ---- The dispatch gate --------------------------------------------------------------------------

  /** The entries the dispatch gate looks at. */
  function Counted(ledger: seq<LedgerEntry>, project: string, cutoff: Time): seq<LedgerEntry> {
    if ledger == [] then []
    else
      var e := ledger[|ledger| - 1];
      Counted(ledger[..|ledger| - 1], project, cutoff)
      + (if e.project == project && e.createdAt >= cutoff then [e] else [])
  }

  /** All five known counts of tokens. */
  function AllTokensOf(f: Quantity -> real): real {
    f(Known(Input)) + f(Known(Output)) + f(Known(Reasoning)) + f(Known(CacheRead)) + f(Known(CacheWrite))
  }

  function SumOver(entries: seq<LedgerEntry>): Quantity -> real {
    (q: Quantity) => Sum(entries, Everything(), q)
  }

  lemma TokensAppend(entries: seq<LedgerEntry>, e: LedgerEntry)
    ensures AllTokensOf(SumOver(entries + [e])) == AllTokensOf(SumOver(entries)) + Tokens(e.usage) as real
  {
    forall token: Token
      ensures Sum(entries + [e], Everything(), Known(token)) ==
              Sum(entries, Everything(), Known(token)) + e.usage.Get(token).GetOr(0) as real
    {
      SumAppend(entries, e, Everything(), Known(token));
    }
  }

  lemma {:induction false} GateCountsTheSame(ledger: seq<LedgerEntry>, project: string, cutoff: Time)
    ensures Consumed(ledger, project, cutoff) as real == AllTokensOf(SumOver(Counted(ledger, project, cutoff)))
  {
    if ledger != [] {
      var init := ledger[..|ledger| - 1];
      GateCountsTheSame(init, project, cutoff);
      TokensAppend(Counted(init, project, cutoff), ledger[|ledger| - 1]);
      assert Counted(init, project, cutoff) + [] == Counted(init, project, cutoff);
    }
  }

  function GrandTotal(order: seq<string>, groups: map<string, Group>): Quantity -> real {
    (q: Quantity) => SumKeys(order, Column(groups, q))
  }

  /** The five token columns of a report, grouped in any way, add up to what the dispatch gate counts as consumed. */
  lemma ReportsMatchTheGate(
    ledger: seq<LedgerEntry>, project: string, cutoff: Time, key: Key, order: seq<string>, groups: map<string, Group>)
    requires AllReport(Counted(ledger, project, cutoff), key, order, groups)
    ensures AllTokensOf(GrandTotal(order, groups)) == Consumed(ledger, project, cutoff) as real
  {
    hide AllReport, Counted;
    var entries := Counted(ledger, project, cutoff);
    GateCountsTheSame(ledger, project, cutoff);
    forall token: Token
      ensures GrandTotal(order, groups)(Known(token)) == SumOver(entries)(Known(token))
    {
      GroupsPartition(entries, key, order, groups, Known(token));
    }
  }
}
