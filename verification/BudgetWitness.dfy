/** The overshoot bound of BudgetRuns is attained by every kind of meter: no
    limit is a hard cap, and limit - 1 + flights * most is the exact worst case. */
module BudgetWitness {
  import opened Common
  import opened Calendar
  import opened Pricing
  import opened Budget
  import opened BudgetRuns

  /** One limit, the caller and the resolved route its requests share, and the
      most that one reply charges. */
  datatype Setting = Setting(config: Config, meter: Meter, limit: nat, caller: Caller, route: Route, now: int, most: nat)

  /** The limit in the meter's own units: tokens, or hundredths of a cent. */
  function Cap(s: Setting): int { Units(s.meter, s.limit) }

  /** The route leads to a service, as that of every request that awaits a reply does. */
  predicate LeadsSomewhere(route: Route) {
    && route.requestedModel.Some? && route.requestedModel.value != ""
    && route.serviceId.Some? && route.upstreamModel.Some? && route.providerKind.Some?
  }

  /** One completion token of the model costs a hundredth of a cent. */
  predicate PricedByTheToken(s: Setting) {
    Priced(s.route.upstreamModel, s.config.prices) && s.config.prices[s.route.upstreamModel.value].output == HUNDREDTH
  }

  /** The meter covers the requests, and its limit is the only one they meet. */
  ghost predicate Reasonable(s: Setting) {
    && s.limit >= 1 && 0 <= s.now < END_OF_TIME && LeadsSomewhere(s.route)
    && Limited(s.config, s.meter, s.limit) && Covers(s.meter, s.caller.key, s.route)
    && (forall m | m != s.meter :: LimitFor(s.config, s.caller, s.route, m).None?)
    && (s.meter.CostMeter? ==> PricedByTheToken(s))
  }

  function FlightOf(s: Setting): Flight { Flight(s.caller.key, s.route, s.now) }
  function Using(tokens: nat): Usage { Usage(Some(0), Some(tokens), Some(tokens)) }

  /** Request ids of increasing length. */
  function Id(n: nat): (id: string)
    ensures |id| == n + 1
  {
    if n == 0 then "r" else Id(n - 1) + "r"
  }

  /** n of the requests in flight, with ids longer than `base`. */
  function Aloft(s: Setting, base: nat, n: nat): (m: map<string, Flight>)
    ensures forall id | id in m :: base < |id| <= base + n && m[id] == FlightOf(s)
    ensures |m| == n
  {
    if n == 0 then map[] else Aloft(s, base, n - 1)[Id(base + n - 1) := FlightOf(s)]
  }

  /** No id in the log is longer than `base`. */
  ghost predicate LoggedBelow(w: World, base: nat) {
    forall j | 0 <= j < |w.audit| :: |w.audit[j].requestId| <= base
  }

  lemma InFlightSize(s: Setting, w: World)
    requires Covers(s.meter, s.caller.key, s.route)
    requires forall id | id in w.flights :: w.flights[id] == FlightOf(s)
    ensures |InFlight(s.meter, w)| == |w.flights|
  {
    assert InFlight(s.meter, w) == w.flights.Keys;
  }

  /** What the meter has used, as the gate sees it. */
  ghost function Used(s: Setting, w: World, since: int): nat {
    UsedSince(s.meter, w.audit, since)
  }

  /** One step that keeps within the load, then a run that does. */
  lemma StepThen(config: Config, meter: Meter, w: World, next: World, step: Step, rest: seq<Step>, flights: nat, most: nat)
    requires next == Apply(config, w, step)
    requires |InFlight(meter, w)| <= flights && StepCharges(config, meter, w, step, most)
    requires WithinLoad(config, meter, next, rest, flights, most)
    ensures WithinLoad(config, meter, w, [step] + rest, flights, most)
    ensures Run(config, w, [step] + rest) == Run(config, next, rest)
  {
    assert ([step] + rest)[1..] == rest;
  }

  /** The record of a reply is charged its tokens, whatever the meter counts. */
  lemma RowCharge(s: Setting, id: string, tokens: nat)
    requires Reasonable(s)
    ensures Charge(s.meter, Row(s.config, id, FlightOf(s), true, Using(tokens))) == tokens
  {
    if s.meter.CostMeter? {
      var price := s.config.prices[s.route.upstreamModel.value];
      assert Microdollars(Using(tokens), price) == tokens * HUNDREDTH;
      HalfUpIsNearest(tokens * HUNDREDTH, tokens);
    }
  }

  /** A flight lands and is charged its tokens. */
  lemma Lands(s: Setting, id: string, tokens: nat, w: World, since: int) returns (step: Step, next: World)
    requires Reasonable(s)
    requires id in w.flights && w.flights[id] == FlightOf(s) && since <= s.now && tokens <= s.most
    ensures next == Apply(s.config, w, step) && StepCharges(s.config, s.meter, w, step, s.most)
    ensures next.now == w.now && next.flights == w.flights - {id}
    ensures |next.audit| == |w.audit| + 1 && next.audit[..|w.audit|] == w.audit
    ensures next.audit[|w.audit|].requestId == id
    ensures Used(s, next, since) == Used(s, w, since) + tokens
  {
    hide Limited, LimitFor, EstimatedCost, Charge;
    step := Finish(id, Using(tokens));
    next := Apply(s.config, w, step);
    RowCharge(s, id, tokens);
    assert s.meter.CostMeter? ==> ExactCost(s.config.prices[s.route.upstreamModel.value], Using(tokens)) == tokens * HUNDREDTH;
  }

  /** Below its limit the gate lets a request pass. */
  lemma GateOpen(s: Setting, w: World, since: int)
    requires Reasonable(s) && w.now == s.now
    requires MonthlyPeriodStart(s.now, s.config.resetDay) == Some(since) && Used(s, w, since) < Cap(s)
    ensures Gate(s.config, w.audit, s.caller, s.route, w.now) == Admitted
  {
    hide Gate, MonthlyPeriodStart, EstimatedCost, UsedSince;
    GatePassesIff(s.config, w.audit, s.caller, s.route, w.now);
    forall m ensures BelowLimit(s.config, w.audit, s.caller, s.route, since, m) {
      assert m != s.meter ==> LimitFor(s.config, s.caller, s.route, m).None?;
    }
    forall c ensures s.meter.TokenMeter? ==> LimitFor(s.config, s.caller, s.route, CostMeter(c)).None? {
      assert s.meter.TokenMeter? ==> CostMeter(c) != s.meter;
    }
  }

  /** Below its limit, a request takes off. */
  lemma TakesOff(s: Setting, id: string, w: World, since: int) returns (step: Step, next: World)
    requires Reasonable(s) && w.now == s.now && Fresh(w, id)
    requires MonthlyPeriodStart(s.now, s.config.resetDay) == Some(since) && Used(s, w, since) < Cap(s)
    ensures next == Apply(s.config, w, step) && StepCharges(s.config, s.meter, w, step, s.most)
    ensures next == w.(flights := w.flights[id := FlightOf(s)])
  {
    hide Gate, MonthlyPeriodStart, Limited, LimitFor;
    GateOpen(s, w, since);
    step := Arrive(id, s.caller, s.route, false);
    next := Apply(s.config, w, step);
  }

  lemma NextIsFresh(s: Setting, base: nat, i: nat, w: World)
    requires w.flights == Aloft(s, base, i) && LoggedBelow(w, base)
    ensures Fresh(w, Id(base + i))
  {
  }

  /** The next request takes off beside i others. */
  lemma NextTakesOff(s: Setting, base: nat, i: nat, w: World, since: int) returns (step: Step, next: World)
    requires Reasonable(s) && w.now == s.now && w.flights == Aloft(s, base, i) && LoggedBelow(w, base)
    requires MonthlyPeriodStart(s.now, s.config.resetDay) == Some(since) && Used(s, w, since) < Cap(s)
    ensures next == Apply(s.config, w, step) && StepCharges(s.config, s.meter, w, step, s.most)
    ensures next.now == s.now && next.audit == w.audit && next.flights == Aloft(s, base, i + 1)
    ensures LoggedBelow(next, base) && |InFlight(s.meter, w)| == i
  {
    hide Apply, MonthlyPeriodStart, Limited, UsedSince;
    InFlightSize(s, w);
    NextIsFresh(s, base, i, w);
    step, next := TakesOff(s, Id(base + i), w, since);
  }

  lemma LandedAloft(s: Setting, base: nat, n: nat)
    requires n > 0
    ensures Aloft(s, base, n) - {Id(base + n - 1)} == Aloft(s, base, n - 1)
    ensures Id(base + n - 1) in Aloft(s, base, n) && Aloft(s, base, n)[Id(base + n - 1)] == FlightOf(s)
  {
  }

  lemma LoggedOneMore(before: World, after: World, base: nat)
    requires LoggedBelow(before, base) && |after.audit| == |before.audit| + 1
    requires after.audit[..|before.audit|] == before.audit && |after.audit[|before.audit|].requestId| == base + 1
    ensures LoggedBelow(after, base + 1)
  {
    forall j | 0 <= j < |after.audit| ensures |after.audit[j].requestId| <= base + 1 {
      if j < |before.audit| {
        assert after.audit[j] == after.audit[..|before.audit|][j];
      }
    }
  }

  /** n flights land. */
  lemma {:induction false} Descend(s: Setting, base: nat, n: nat, w: World, flights: nat, since: int)
    returns (steps: seq<Step>, end: World)
    requires Reasonable(s) && w.flights == Aloft(s, base, n) && n <= flights && since <= s.now
    ensures WithinLoad(s.config, s.meter, w, steps, flights, s.most)
    ensures end == Run(s.config, w, steps) && end.now == w.now
    ensures Used(s, end, since) == Used(s, w, since) + Reserve(s.most, n)
    decreases n
  {
    hide Apply, Aloft, MonthlyPeriodStart, UsedSince;
    InFlightSize(s, w);
    steps, end := [], w;
    if n > 0 {
      LandedAloft(s, base, n);
      var step, next := Lands(s, Id(base + n - 1), s.most, w, since);
      var rest, after := Descend(s, base, n - 1, next, flights, since);
      StepThen(s.config, s.meter, w, next, step, rest, flights, s.most);
      steps, end := [step] + rest, after;
    }
  }

  /** All but i of n requests take off one after the other, then all n land. */
  lemma {:induction false} Climb(s: Setting, base: nat, i: nat, n: nat, w: World, since: int)
    returns (steps: seq<Step>, end: World)
    requires Reasonable(s) && i <= n && w.now == s.now && w.flights == Aloft(s, base, i) && LoggedBelow(w, base)
    requires MonthlyPeriodStart(s.now, s.config.resetDay) == Some(since) && since <= s.now
    requires Used(s, w, since) == Cap(s) - 1
    ensures WithinLoad(s.config, s.meter, w, steps, n, s.most)
    ensures end == Run(s.config, w, steps) && end.now == s.now
    ensures Used(s, end, since) == Cap(s) - 1 + Reserve(s.most, n)
    decreases n - i
  {
    hide Apply, Run, WithinLoad, MonthlyPeriodStart, Limited, UsedSince, Aloft, LoggedBelow;
    if i == n {
      steps, end := Descend(s, base, n, w, n, since);
    } else {
      var step, next := NextTakesOff(s, base, i, w, since);
      var rest, after := Climb(s, base, i + 1, n, next, since);
      StepThen(s.config, s.meter, w, next, step, rest, n, s.most);
      steps, end := [step] + rest, after;
    }
  }

  /** A single request comes and goes. */
  lemma RoundTrip(s: Setting, base: nat, tokens: nat, w: World, since: int)
    returns (first: Step, one: World, second: Step, two: World)
    requires Reasonable(s) && w.now == s.now && w.flights == map[] && LoggedBelow(w, base) && tokens <= s.most
    requires MonthlyPeriodStart(s.now, s.config.resetDay) == Some(since) && since <= s.now && Used(s, w, since) < Cap(s)
    ensures one == Apply(s.config, w, first) && StepCharges(s.config, s.meter, w, first, s.most)
    ensures two == Apply(s.config, one, second) && StepCharges(s.config, s.meter, one, second, s.most)
    ensures |InFlight(s.meter, w)| <= 1 && |InFlight(s.meter, one)| <= 1
    ensures two.now == s.now && two.flights == map[] && LoggedBelow(two, base + 1)
    ensures Used(s, two, since) == Used(s, w, since) + tokens
  {
    hide Apply, MonthlyPeriodStart, Limited, UsedSince;
    assert Aloft(s, base, 0) == map[] && Aloft(s, base, 1) == map[Id(base) := FlightOf(s)];
    first, one := NextTakesOff(s, base, 0, w, since);
    InFlightSize(s, one);
    second, two := Lands(s, Id(base), tokens, one, since);
    LoggedOneMore(one, two, base);
  }

  /** Single requests use up all but one token; then all the others are admitted
      together and land. */
  lemma {:induction false} SpendsAll(s: Setting, base: nat, w: World, flights: nat, since: int)
    returns (steps: seq<Step>, end: World)
    requires Reasonable(s) && w.now == s.now && w.flights == map[] && LoggedBelow(w, base)
    requires flights >= 1 && (s.most >= 1 || Cap(s) == 1)
    requires MonthlyPeriodStart(s.now, s.config.resetDay) == Some(since) && since <= s.now
    requires Used(s, w, since) < Cap(s)
    ensures WithinLoad(s.config, s.meter, w, steps, flights, s.most)
    ensures end == Run(s.config, w, steps) && end.now == s.now
    ensures Used(s, end, since) == Cap(s) - 1 + Reserve(s.most, flights)
    decreases Cap(s) - Used(s, w, since)
  {
    hide Apply, Run, WithinLoad, MonthlyPeriodStart, Limited, UsedSince;
    var missing := Cap(s) - 1 - Used(s, w, since);
    if missing == 0 {
      steps, end := Climb(s, base, 0, flights, w, since);
    } else {
      var tokens := if missing <= s.most then missing else s.most;
      var first, one, second, two := RoundTrip(s, base, tokens, w, since);
      var rest, after := SpendsAll(s, base + 1, two, flights, since);
      StepThen(s.config, s.meter, one, two, second, rest, flights, s.most);
      StepThen(s.config, s.meter, w, one, first, [second] + rest, flights, s.most);
      steps, end := [first] + ([second] + rest), after;
    }
  }

  /** For every limit of every kind and for every load there is a run within
      that load that charges one period exactly limit - 1 + flights * most;
      replies that may charge nothing can of course not come near a larger limit. */
  lemma BoundIsAttained(s: Setting, w: World, flights: nat) returns (steps: seq<Step>, period: int)
    requires Reasonable(s) && Initial(w) && w.now == s.now && flights >= 1 && (s.most >= 1 || Cap(s) == 1)
    ensures WithinLoad(s.config, s.meter, w, steps, flights, s.most)
    ensures ChargedIn(s.config, s.meter, Run(s.config, w, steps).audit, period) == Cap(s) - 1 + flights * s.most
  {
    hide MonthlyPeriodStart;
    PeriodExists(s.now, s.config.resetDay);
    period := MonthlyPeriodStart(s.now, s.config.resetDay).value;
    PeriodStartIsGreatestBoundary(s.now, s.config.resetDay);
    var end: World;
    steps, end := SpendsAll(s, 0, w, flights, period);
    RunNeverUncharges(s.config, s.meter, w, steps, period);
    QuerySumsThisPeriod(s.config, s.meter, end.audit, s.now);
    ReserveIsProduct(s.most, flights);
  }

  // ---- Every limit occurs -------------------------------------------------------

  predicate Nameable(meter: Meter) {
    match meter
    case TokenMeter(k) => k != ""
    case CostMeter(KeyScope(k)) => k != ""
    case CostMeter(GlobalScope) => true
    case CostMeter(ProviderScope(kind)) => kind != ""
  }

  /** A configuration whose only limit is this one. */
  function OnlyLimit(meter: Meter, limit: nat): Config {
    var free := Config(true, 1, None, map[], false, map["m" := Price(0, HUNDREDTH)], map[]);
    match meter
    case TokenMeter(k) => free.(keys := map[k := KeyLimits(Some(limit), None)])
    case CostMeter(KeyScope(k)) => free.(keys := map[k := KeyLimits(None, Some(limit))])
    case CostMeter(GlobalScope) => free.(globalBudgetCents := Some(limit))
    case CostMeter(ProviderScope(kind)) => free.(providerBudgetCents := map[kind := limit])
  }

  function OnlyCaller(meter: Meter): Caller {
    match meter
    case TokenMeter(k) => Caller(Some(k))
    case CostMeter(KeyScope(k)) => Caller(Some(k))
    case _ => Caller(None)
  }

  function OnlyRoute(meter: Meter): Route {
    Route(Some("m"), Some("s"), Some("m"),
          Some(if meter.CostMeter? && meter.scope.ProviderScope? then meter.scope.kind else "openai"))
  }

  /** Whatever the meter and the limit, the bound can be attained for it. */
  lemma EveryLimitHasASetting(meter: Meter, limit: nat, most: nat) returns (s: Setting)
    requires Nameable(meter) && limit >= 1
    ensures Reasonable(s) && s.meter == meter && s.limit == limit && s.most == most
  {
    s := Setting(OnlyLimit(meter, limit), meter, limit, OnlyCaller(meter), OnlyRoute(meter), 0, most);
    forall m | m != meter ensures LimitFor(s.config, s.caller, s.route, m).None? {
    }
  }
}
