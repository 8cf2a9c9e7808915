/** The audit log, its usage queries, and the budget gate in front of every request. */
module Budget {
  import opened Common
  import opened Calendar
  import opened Pricing

  datatype Route = Route(
    requestedModel: Option<string>,
    serviceId: Option<string>,
    upstreamModel: Option<string>,
    providerKind: Option<string>)

  datatype AuditRow = AuditRow(
    requestId: string,
    keyId: Option<string>,
    route: Route,
    startedAt: int,
    success: bool,
    totalTokens: Option<nat>,
    cost: Option<nat>)

  datatype KeyLimits = KeyLimits(tokenLimit: Option<int>, budgetCents: Option<int>)

  /** `key` is the caller's named key, if it authenticated with one. */
  datatype Caller = Caller(key: Option<string>)

  datatype Config = Config(
    enabled: bool,
    resetDay: int,
    globalBudgetCents: Option<int>,
    providerBudgetCents: map<string, int>,
    denyOnUnknownCost: bool,
    prices: map<string, Price>,
    keys: map<string, KeyLimits>)

  // ---- Meters: what is added up, and over which rows -----------------------

  datatype Scope = KeyScope(keyId: string) | GlobalScope | ProviderScope(kind: string)

  datatype Meter = TokenMeter(keyId: string) | CostMeter(scope: Scope)

  predicate Covers(meter: Meter, keyId: Option<string>, route: Route) {
    match meter
    case TokenMeter(k) => keyId == Some(k)
    case CostMeter(KeyScope(k)) => keyId == Some(k)
    case CostMeter(GlobalScope) => true
    case CostMeter(ProviderScope(kind)) => route.providerKind == Some(kind)
  }

  function OrZero(amount: Option<nat>): nat {
    if amount.Some? then amount.value else 0
  }

  function Charge(meter: Meter, row: AuditRow): nat {
    if !Covers(meter, row.keyId, row.route) then 0
    else if meter.TokenMeter? then OrZero(row.totalTokens)
    else OrZero(row.cost)
  }

  /** The usage queries: everything charged to a meter since an instant. */
  function UsedSince(meter: Meter, audit: seq<AuditRow>, since: int): nat {
    if audit == [] then 0
    else
      var last := audit[|audit| - 1];
      UsedSince(meter, audit[..|audit| - 1], since) + (if last.startedAt >= since then Charge(meter, last) else 0)
  }

  // ---- The gate --------------------------------------------------------------

  datatype Decision =
    | Admitted
    | TokensExhausted(keyId: string, used: nat, limit: int)
    | UnknownCost(model: Option<string>)
    | CostExhausted(scope: Scope, used: nat, limitCents: int)
    | NoPeriod

  function NamedKey(config: Config, caller: Caller): Option<KeyLimits> {
    if caller.key.Some? && caller.key.value != "" && caller.key.value in config.keys
    then Some(config.keys[caller.key.value])
    else None
  }

  /** The cost scopes that have a limit for this request, in the order tried. */
  function CostLimits(config: Config, caller: Caller, route: Route): seq<(Scope, int)> {
    var key := NamedKey(config, caller);
    (if key.Some? && key.value.budgetCents.Some? then [(KeyScope(caller.key.value), key.value.budgetCents.value)] else [])
    + (if config.globalBudgetCents.Some? then [(GlobalScope, config.globalBudgetCents.value)] else [])
    + (if route.providerKind.Some? && route.providerKind.value != "" && route.providerKind.value in config.providerBudgetCents
       then [(ProviderScope(route.providerKind.value), config.providerBudgetCents[route.providerKind.value])] else [])
  }

  predicate Exhausted(audit: seq<AuditRow>, since: int, limit: (Scope, int)) {
    UsedSince(CostMeter(limit.0), audit, since) >= 100 * limit.1
  }

  /** The first exhausted scope stops the request. */
  function CheckCosts(audit: seq<AuditRow>, since: int, limits: seq<(Scope, int)>): Decision {
    if limits == [] then Admitted
    else if Exhausted(audit, since, limits[0])
    then CostExhausted(limits[0].0, UsedSince(CostMeter(limits[0].0), audit, since), limits[0].1)
    else CheckCosts(audit, since, limits[1..])
  }

  function Gate(config: Config, audit: seq<AuditRow>, caller: Caller, route: Route, now: int): Decision {
    if !config.enabled then Admitted
    else
      match MonthlyPeriodStart(now, config.resetDay)
      case None => NoPeriod
      case Some(since) =>
        var key := NamedKey(config, caller);
        var limits := CostLimits(config, caller, route);
        if key.Some? && key.value.tokenLimit.Some?
           && UsedSince(TokenMeter(caller.key.value), audit, since) >= key.value.tokenLimit.value
        then TokensExhausted(caller.key.value, UsedSince(TokenMeter(caller.key.value), audit, since), key.value.tokenLimit.value)
        else if limits == [] then Admitted
        else if EstimatedCost(route.upstreamModel, ZERO_USAGE, config.prices).None?
        then (if config.denyOnUnknownCost then UnknownCost(route.upstreamModel) else Admitted)
        else CheckCosts(audit, since, limits)
  }

  // ---- What passing the gate means -------------------------------------------

  /** The limit configured for a meter, as far as it concerns this request. */
  function LimitFor(config: Config, caller: Caller, route: Route, meter: Meter): Option<int> {
    var key := NamedKey(config, caller);
    match meter
    case TokenMeter(k) => if key.Some? && caller.key == Some(k) then key.value.tokenLimit else None
    case CostMeter(KeyScope(k)) => if key.Some? && caller.key == Some(k) then key.value.budgetCents else None
    case CostMeter(GlobalScope) => config.globalBudgetCents
    case CostMeter(ProviderScope(kind)) =>
      if kind != "" && route.providerKind == Some(kind) && kind in config.providerBudgetCents
      then Some(config.providerBudgetCents[kind]) else None
  }

  /** Limits are counted in tokens, or in cents against hundredths of a cent. */
  function Units(meter: Meter, limit: int): int {
    if meter.TokenMeter? then limit else 100 * limit
  }

  ghost predicate BelowLimit(config: Config, audit: seq<AuditRow>, caller: Caller, route: Route, since: int, meter: Meter) {
    LimitFor(config, caller, route, meter).Some? ==>
      UsedSince(meter, audit, since) < Units(meter, LimitFor(config, caller, route, meter).value)
  }

  lemma {:induction false} CheckCostsPassesIff(audit: seq<AuditRow>, since: int, limits: seq<(Scope, int)>)
    ensures CheckCosts(audit, since, limits) == Admitted <==> forall l | l in limits :: !Exhausted(audit, since, l)
    ensures !CheckCosts(audit, since, limits).NoPeriod? && !CheckCosts(audit, since, limits).UnknownCost?
    ensures !CheckCosts(audit, since, limits).TokensExhausted?
  {
    if limits != [] {
      CheckCostsPassesIff(audit, since, limits[1..]);
    }
  }

  lemma CostLimitsAreTheConfiguredScopes(config: Config, caller: Caller, route: Route, scope: Scope, limit: int)
    ensures (scope, limit) in CostLimits(config, caller, route)
            <==> LimitFor(config, caller, route, CostMeter(scope)) == Some(limit)
  {
  }

  /** A request passes exactly when the gate is off, or there is a current
      period, the key's tokens are not used up, and every configured cost scope
      is strictly below its limit.  A model without a price is not held to the
      cost scopes; whether it passes is up to `denyOnUnknownCost`. */
  lemma GatePassesIff(config: Config, audit: seq<AuditRow>, caller: Caller, route: Route, now: int)
    ensures Gate(config, audit, caller, route, now) == Admitted
            <==>
            (config.enabled ==>
               var period := MonthlyPeriodStart(now, config.resetDay);
               var priced := Priced(route.upstreamModel, config.prices);
               && period.Some?
               && (forall k :: BelowLimit(config, audit, caller, route, period.value, TokenMeter(k)))
               && (priced ==> forall s :: BelowLimit(config, audit, caller, route, period.value, CostMeter(s)))
               && (!priced && config.denyOnUnknownCost ==>
                     forall s :: LimitFor(config, caller, route, CostMeter(s)).None?))
  {
    var period := MonthlyPeriodStart(now, config.resetDay);
    if config.enabled && period.Some? {
      var since := period.value;
      var limits := CostLimits(config, caller, route);
      ZeroUsageProbesThePrice(route.upstreamModel, NO_USAGE, config.prices);
      CheckCostsPassesIff(audit, since, limits);
      forall s: Scope, limit: int
        ensures (s, limit) in limits <==> LimitFor(config, caller, route, CostMeter(s)) == Some(limit)
      {
        CostLimitsAreTheConfiguredScopes(config, caller, route, s, limit);
      }
      TokenGateIff(config, audit, caller, route, since);
      CostGateIff(config, audit, caller, route, since);
      NoLimitsIff(config, caller, route);
    }
  }

  lemma TokenGateIff(config: Config, audit: seq<AuditRow>, caller: Caller, route: Route, since: int)
    ensures (forall k :: BelowLimit(config, audit, caller, route, since, TokenMeter(k)))
            <==> !(NamedKey(config, caller).Some? && NamedKey(config, caller).value.tokenLimit.Some?
                   && UsedSince(TokenMeter(caller.key.value), audit, since) >= NamedKey(config, caller).value.tokenLimit.value)
  {
    if NamedKey(config, caller).Some? && NamedKey(config, caller).value.tokenLimit.Some? {
      var own := TokenMeter(caller.key.value);
      assert LimitFor(config, caller, route, own) == NamedKey(config, caller).value.tokenLimit;
      if forall k :: BelowLimit(config, audit, caller, route, since, TokenMeter(k)) {
        assert BelowLimit(config, audit, caller, route, since, TokenMeter(caller.key.value));
      }
    }
  }

  lemma CostGateIff(config: Config, audit: seq<AuditRow>, caller: Caller, route: Route, since: int)
    ensures (forall s :: BelowLimit(config, audit, caller, route, since, CostMeter(s)))
            <==> forall l | l in CostLimits(config, caller, route) :: !Exhausted(audit, since, l)
  {
    var limits := CostLimits(config, caller, route);
    if forall s :: BelowLimit(config, audit, caller, route, since, CostMeter(s)) {
      forall l | l in limits ensures !Exhausted(audit, since, l) {
        CostLimitsAreTheConfiguredScopes(config, caller, route, l.0, l.1);
        assert BelowLimit(config, audit, caller, route, since, CostMeter(l.0));
      }
    }
    if forall l | l in limits :: !Exhausted(audit, since, l) {
      forall s ensures BelowLimit(config, audit, caller, route, since, CostMeter(s)) {
        var limit := LimitFor(config, caller, route, CostMeter(s));
        if limit.Some? {
          CostLimitsAreTheConfiguredScopes(config, caller, route, s, limit.value);
          assert !Exhausted(audit, since, (s, limit.value));
        }
      }
    }
  }

  lemma NoLimitsIff(config: Config, caller: Caller, route: Route)
    ensures CostLimits(config, caller, route) == []
            <==> forall s :: LimitFor(config, caller, route, CostMeter(s)).None?
  {
    var limits := CostLimits(config, caller, route);
    if limits != [] {
      CostLimitsAreTheConfiguredScopes(config, caller, route, limits[0].0, limits[0].1);
      assert LimitFor(config, caller, route, CostMeter(limits[0].0)).Some?;
    } else {
      forall s ensures LimitFor(config, caller, route, CostMeter(s)).None? {
        var limit := LimitFor(config, caller, route, CostMeter(s));
        if limit.Some? {
          CostLimitsAreTheConfiguredScopes(config, caller, route, s, limit.value);
        }
      }
    }
  }

  /** A refusal for cost names the first exhausted scope in the order tried. */
  lemma {:induction false} FirstExhaustedScopeIsNamed(audit: seq<AuditRow>, since: int, limits: seq<(Scope, int)>)
    requires CheckCosts(audit, since, limits).CostExhausted?
    ensures exists i | 0 <= i < |limits| ::
      && limits[i] == (CheckCosts(audit, since, limits).scope, CheckCosts(audit, since, limits).limitCents)
      && Exhausted(audit, since, limits[i])
      && forall j | 0 <= j < i :: !Exhausted(audit, since, limits[j])
  {
    if Exhausted(audit, since, limits[0]) {
      assert limits[0] == (CheckCosts(audit, since, limits).scope, CheckCosts(audit, since, limits).limitCents);
    } else {
      var rest := limits[1..];
      FirstExhaustedScopeIsNamed(audit, since, rest);
      var i :| 0 <= i < |rest|
        && rest[i] == (CheckCosts(audit, since, rest).scope, CheckCosts(audit, since, rest).limitCents)
        && Exhausted(audit, since, rest[i])
        && forall j | 0 <= j < i :: !Exhausted(audit, since, rest[j]);
      assert limits[i + 1] == rest[i];
      forall j | 0 <= j < i + 1 ensures !Exhausted(audit, since, limits[j]) {
        if j > 0 { assert limits[j] == rest[j - 1]; }
      }
    }
  }

  /** The limit a cost scope has for a request, in the order the scopes are tried. */
  function ScopeLimit(config: Config, caller: Caller, route: Route, order: nat): Option<(Scope, int)> {
    if order == 0 then
      if caller.key.Some? && caller.key.value != "" && caller.key.value in config.keys
         && config.keys[caller.key.value].budgetCents.Some?
      then Some((KeyScope(caller.key.value), config.keys[caller.key.value].budgetCents.value)) else None
    else if order == 1 then
      if config.globalBudgetCents.Some? then Some((GlobalScope, config.globalBudgetCents.value)) else None
    else
      if route.providerKind.Some? && route.providerKind.value != "" && route.providerKind.value in config.providerBudgetCents
      then Some((ProviderScope(route.providerKind.value), config.providerBudgetCents[route.providerKind.value])) else None
  }

  predicate ScopeSpent(config: Config, audit: seq<AuditRow>, caller: Caller, route: Route, since: int, order: nat) {
    var l := ScopeLimit(config, caller, route, order);
    l.Some? && UsedSince(CostMeter(l.value.0), audit, since) >= 100 * l.value.1
  }

  lemma CheckCostsByOrder(config: Config, audit: seq<AuditRow>, caller: Caller, route: Route, since: int)
    ensures var spent := (o: nat) => ScopeSpent(config, audit, caller, route, since, o);
            CheckCosts(audit, since, CostLimits(config, caller, route)) ==
            if !spent(0) && !spent(1) && !spent(2) then Admitted
            else
              var l := ScopeLimit(config, caller, route, if spent(0) then 0 else if spent(1) then 1 else 2).value;
              CostExhausted(l.0, UsedSince(CostMeter(l.0), audit, since), l.1)
  {
    var limits := CostLimits(config, caller, route);
    var a, b, c := ScopeLimit(config, caller, route, 0), ScopeLimit(config, caller, route, 1), ScopeLimit(config, caller, route, 2);
    var x, y, z := (if a.Some? then [a.value] else []), (if b.Some? then [b.value] else []), (if c.Some? then [c.value] else []);
    assert limits == x + y + z;
    CheckCostsConcat(audit, since, x + y, z);
    CheckCostsConcat(audit, since, x, y);
  }

  lemma {:induction false} CheckCostsConcat(audit: seq<AuditRow>, since: int, xs: seq<(Scope, int)>, ys: seq<(Scope, int)>)
    ensures CheckCosts(audit, since, xs + ys) ==
            if CheckCosts(audit, since, xs) == Admitted then CheckCosts(audit, since, ys) else CheckCosts(audit, since, xs)
  {
    if xs == [] {
      assert xs + ys == ys;
    } else {
      assert (xs + ys)[0] == xs[0] && (xs + ys)[1..] == xs[1..] + ys;
      CheckCostsConcat(audit, since, xs[1..], ys);
    }
  }

  /** A refusal says truly what ran out, and the first thing that did: a key's
      tokens before any cost, then an unknown price, then the key's, the global
      and the provider's budget in that order. */
  lemma RefusalsAreTrue(config: Config, audit: seq<AuditRow>, caller: Caller, route: Route, now: int)
    requires config.enabled && MonthlyPeriodStart(now, config.resetDay).Some?
    ensures var since := MonthlyPeriodStart(now, config.resetDay).value;
            var named := caller.key.Some? && caller.key.value != "" && caller.key.value in config.keys;
            var tokens := if named then config.keys[caller.key.value].tokenLimit else None;
            var spent := (o: nat) => ScopeSpent(config, audit, caller, route, since, o);
            Gate(config, audit, caller, route, now) ==
            if tokens.Some? && UsedSince(TokenMeter(caller.key.value), audit, since) >= tokens.value
            then TokensExhausted(caller.key.value, UsedSince(TokenMeter(caller.key.value), audit, since), tokens.value)
            else if forall o: nat | o <= 2 :: ScopeLimit(config, caller, route, o).None? then Admitted
            else if !Priced(route.upstreamModel, config.prices)
            then (if config.denyOnUnknownCost then UnknownCost(route.upstreamModel) else Admitted)
            else if !spent(0) && !spent(1) && !spent(2) then Admitted
            else
              var l := ScopeLimit(config, caller, route, if spent(0) then 0 else if spent(1) then 1 else 2).value;
              CostExhausted(l.0, UsedSince(CostMeter(l.0), audit, since), l.1)
  {
    hide MonthlyPeriodStart, UsedSince, CheckCosts;
    var since := MonthlyPeriodStart(now, config.resetDay).value;
    ZeroUsageProbesThePrice(route.upstreamModel, NO_USAGE, config.prices);
    CheckCostsByOrder(config, audit, caller, route, since);
    assert (forall o: nat | o <= 2 :: ScopeLimit(config, caller, route, o).None?) <==> CostLimits(config, caller, route) == [] by {
      var none := (o: nat) => ScopeLimit(config, caller, route, o).None?;
      assert (none(0) && none(1) && none(2)) <==> CostLimits(config, caller, route) == [];
    }
  }

  // ---- The usage queries and the periods -------------------------------------

  ghost predicate InPeriod(config: Config, row: AuditRow, period: int) {
    MonthlyPeriodStart(row.startedAt, config.resetDay) == Some(period)
  }

  /** Everything charged to a meter in one period, whenever it was recorded. */
  ghost function ChargedIn(config: Config, meter: Meter, audit: seq<AuditRow>, period: int): nat {
    if audit == [] then 0
    else
      var last := audit[|audit| - 1];
      ChargedIn(config, meter, audit[..|audit| - 1], period) + (if InPeriod(config, last, period) then Charge(meter, last) else 0)
  }

  ghost predicate Dated(config: Config, audit: seq<AuditRow>, now: int) {
    forall i | 0 <= i < |audit| ::
      audit[i].startedAt <= now && MonthlyPeriodStart(audit[i].startedAt, config.resetDay).Some?
  }

  /** At check time the usage query sums exactly the current period's rows. */
  lemma {:induction false} QuerySumsThisPeriod(config: Config, meter: Meter, audit: seq<AuditRow>, now: int)
    requires Dated(config, audit, now) && MonthlyPeriodStart(now, config.resetDay).Some?
    ensures var since := MonthlyPeriodStart(now, config.resetDay).value;
            UsedSince(meter, audit, since) == ChargedIn(config, meter, audit, since)
  {
    if audit != [] {
      var front, last := audit[..|audit| - 1], audit[|audit| - 1];
      assert forall i | 0 <= i < |front| :: front[i] == audit[i];
      QuerySumsThisPeriod(config, meter, front, now);
      FilterKeepsExactlyThisPeriod(last.startedAt, now, config.resetDay);
    }
  }

  /** The total over rows with a given label. */
  ghost function Labelled<L>(amount: AuditRow -> nat, tag: AuditRow -> L, audit: seq<AuditRow>, l: L): nat {
    if audit == [] then 0
    else
      var last := audit[|audit| - 1];
      Labelled(amount, tag, audit[..|audit| - 1], l) + (if tag(last) == l then amount(last) else 0)
  }

  ghost function SumOver<L>(amount: AuditRow -> nat, tag: AuditRow -> L, audit: seq<AuditRow>, labels: seq<L>): nat {
    if labels == [] then 0
    else Labelled(amount, tag, audit, labels[0]) + SumOver(amount, tag, audit, labels[1..])
  }

  ghost function SumAll(amount: AuditRow -> nat, audit: seq<AuditRow>): nat {
    if audit == [] then 0 else SumAll(amount, audit[..|audit| - 1]) + amount(audit[|audit| - 1])
  }

  predicate Distinct<L(==)>(labels: seq<L>) {
    forall i, j | 0 <= i < j < |labels| :: labels[i] != labels[j]
  }

  lemma {:induction false} SumOverEmpty<L>(amount: AuditRow -> nat, tag: AuditRow -> L, labels: seq<L>)
    ensures SumOver(amount, tag, [], labels) == 0
  {
    if labels != [] {
      SumOverEmpty(amount, tag, labels[1..]);
    }
  }

  lemma {:induction false} SumOverLast<L>(amount: AuditRow -> nat, tag: AuditRow -> L, audit: seq<AuditRow>, labels: seq<L>)
    requires audit != [] && Distinct(labels)
    ensures var front, last := audit[..|audit| - 1], audit[|audit| - 1];
            SumOver(amount, tag, audit, labels)
            == SumOver(amount, tag, front, labels) + if tag(last) in labels then amount(last) else 0
  {
    if labels != [] {
      SumOverLast(amount, tag, audit, labels[1..]);
    }
  }

  /** Splitting the log by any label (the key, the provider kind, the period),
      the absent label included, loses and double-counts nothing. */
  lemma {:induction false} LabelsPartition<L>(amount: AuditRow -> nat, tag: AuditRow -> L, audit: seq<AuditRow>, labels: seq<L>)
    requires Distinct(labels) && forall i | 0 <= i < |audit| :: tag(audit[i]) in labels
    ensures SumOver(amount, tag, audit, labels) == SumAll(amount, audit)
  {
    if audit == [] {
      SumOverEmpty(amount, tag, labels);
    } else {
      LabelsPartition(amount, tag, audit[..|audit| - 1], labels);
      SumOverLast(amount, tag, audit, labels);
    }
  }

  /** The per-key and per-provider queries are such splits of the global query. */
  lemma {:induction false} ScopesAreLabels(audit: seq<AuditRow>, since: int)
    ensures var cost := (r: AuditRow) => if r.startedAt >= since then OrZero(r.cost) else 0;
            && SumAll(cost, audit) == UsedSince(CostMeter(GlobalScope), audit, since)
            && (forall k :: Labelled(cost, (r: AuditRow) => r.keyId, audit, Some(k)) == UsedSince(CostMeter(KeyScope(k)), audit, since))
            && (forall p :: Labelled(cost, (r: AuditRow) => r.route.providerKind, audit, Some(p)) == UsedSince(CostMeter(ProviderScope(p)), audit, since))
  {
    if audit != [] {
      ScopesAreLabels(audit[..|audit| - 1], since);
    }
  }

  /** The per-key queries over the known keys plus the keyless rows make up the
      global query, and so do the per-provider ones. */
  lemma CostConservation(audit: seq<AuditRow>, since: int, labels: seq<Option<string>>)
    requires Distinct(labels)
    ensures var cost := (r: AuditRow) => if r.startedAt >= since then OrZero(r.cost) else 0;
            var key, provider := (r: AuditRow) => r.keyId, (r: AuditRow) => r.route.providerKind;
            && ((forall i | 0 <= i < |audit| :: audit[i].keyId in labels) ==>
                  SumOver(cost, key, audit, labels) == UsedSince(CostMeter(GlobalScope), audit, since))
            && ((forall i | 0 <= i < |audit| :: audit[i].route.providerKind in labels) ==>
                  SumOver(cost, provider, audit, labels) == UsedSince(CostMeter(GlobalScope), audit, since))
  {
    var cost := (r: AuditRow) => if r.startedAt >= since then OrZero(r.cost) else 0;
    var key, provider := (r: AuditRow) => r.keyId, (r: AuditRow) => r.route.providerKind;
    ScopesAreLabels(audit, since);
    if forall i | 0 <= i < |audit| :: audit[i].keyId in labels {
      LabelsPartition(cost, key, audit, labels);
    }
    if forall i | 0 <= i < |audit| :: audit[i].route.providerKind in labels {
      LabelsPartition(cost, provider, audit, labels);
    }
  }

  /** Over a whole log every row is charged to exactly one period: the periods'
      totals add up to everything ever charged. */
  lemma PeriodsPartition(config: Config, meter: Meter, audit: seq<AuditRow>, periods: seq<Option<int>>)
    requires Distinct(periods)
    requires forall i | 0 <= i < |audit| :: MonthlyPeriodStart(audit[i].startedAt, config.resetDay) in periods
    ensures var charge := (r: AuditRow) => Charge(meter, r);
            var period := (r: AuditRow) => MonthlyPeriodStart(r.startedAt, config.resetDay);
            && SumOver(charge, period, audit, periods) == SumAll(charge, audit)
            && forall p :: Labelled(charge, period, audit, Some(p)) == ChargedIn(config, meter, audit, p)
  {
    var charge := (r: AuditRow) => Charge(meter, r);
    var period := (r: AuditRow) => MonthlyPeriodStart(r.startedAt, config.resetDay);
    LabelsPartition(charge, period, audit, periods);
    forall p ensures Labelled(charge, period, audit, Some(p)) == ChargedIn(config, meter, audit, p) {
      PeriodIsLabel(config, meter, audit, p);
    }
  }

  lemma {:induction false} PeriodIsLabel(config: Config, meter: Meter, audit: seq<AuditRow>, p: int)
    ensures Labelled((r: AuditRow) => Charge(meter, r),
                     (r: AuditRow) => MonthlyPeriodStart(r.startedAt, config.resetDay), audit, Some(p))
            == ChargedIn(config, meter, audit, p)
  {
    if audit != [] {
      PeriodIsLabel(config, meter, audit[..|audit| - 1], p);
    }
  }
}
