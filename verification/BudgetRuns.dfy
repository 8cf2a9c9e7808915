/** The check / await upstream / record protocol as a state machine: requests of
    many callers interleave freely between their admission and their record. */
module BudgetRuns {
  import opened Common
  import opened Calendar
  import opened Pricing
  import opened Budget

  /** An admitted request that waits for its upstream reply. */
  datatype Flight = Flight(keyId: Option<string>, route: Route, startedAt: int)

  datatype World = World(now: int, audit: seq<AuditRow>, flights: map<string, Flight>)

  datatype Step =
    | Tick(to: int)
    | Arrive(id: string, caller: Caller, route: Route, streaming: bool)
    | Refuse(id: string, caller: Caller, route: Route)   // turned away before the gate
    | Finish(id: string, usage: Usage)
    | Fail(id: string)                                   // proxy or upstream error

  function Row(config: Config, id: string, flight: Flight, success: bool, usage: Usage): AuditRow {
    AuditRow(id, flight.keyId, flight.route, flight.startedAt, success, usage.total,
             if config.enabled then EstimatedCost(flight.route.upstreamModel, usage, config.prices) else None)
  }

  /** Request ids are taken to be unique; an id seen before changes nothing. */
  predicate Fresh(w: World, id: string) {
    id !in w.flights && forall i | 0 <= i < |w.audit| :: w.audit[i].requestId != id
  }

  function Apply(config: Config, w: World, step: Step): World {
    match step
    case Tick(to) => if w.now <= to < END_OF_TIME then w.(now := to) else w
    case Arrive(id, caller, route, streaming) =>
      var flight := Flight(caller.key, route, w.now);
      var decision := Gate(config, w.audit, caller, route, w.now);
      if !Fresh(w, id) || decision.NoPeriod? then w
      else if !decision.Admitted? then w.(audit := w.audit + [Row(config, id, flight, false, NO_USAGE)])
      else if streaming then w.(audit := w.audit + [Row(config, id, flight, true, NO_USAGE)])
      else w.(flights := w.flights[id := flight])
    case Refuse(id, caller, route) =>
      if !Fresh(w, id) then w
      else w.(audit := w.audit + [Row(config, id, Flight(caller.key, route, w.now), false, NO_USAGE)])
    case Finish(id, usage) =>
      if id !in w.flights then w
      else w.(audit := w.audit + [Row(config, id, w.flights[id], true, usage)], flights := w.flights - {id})
    case Fail(id) =>
      if id !in w.flights then w
      else w.(audit := w.audit + [Row(config, id, w.flights[id], false, NO_USAGE)], flights := w.flights - {id})
  }

  function Run(config: Config, w: World, steps: seq<Step>): World
    decreases steps
  {
    if steps == [] then w else Run(config, Apply(config, w, steps[0]), steps[1..])
  }

  ghost predicate Initial(w: World) {
    0 <= w.now < END_OF_TIME && w.audit == [] && w.flights == map[]
  }

  /** Nothing in the log or in flight started in the future or outside the calendar. */
  ghost predicate Sane(config: Config, w: World) {
    && 0 <= w.now < END_OF_TIME
    && Dated(config, w.audit, w.now)
    && forall id | id in w.flights :: 0 <= w.flights[id].startedAt <= w.now
  }

  lemma ApplyKeepsSane(config: Config, w: World, step: Step)
    requires Sane(config, w)
    ensures Sane(config, Apply(config, w, step))
  {
    var w' := Apply(config, w, step);
    if w'.audit != w.audit {
      var row := w'.audit[|w.audit|];
      assert w'.audit == w.audit + [row] && 0 <= row.startedAt <= w.now;
      PeriodExists(row.startedAt, config.resetDay);
    }
  }

  // ---- What bounds a run -------------------------------------------------------

  ghost function InFlight(meter: Meter, w: World): set<string> {
    set id | id in w.flights && Covers(meter, w.flights[id].keyId, w.flights[id].route)
  }

  /** The meter covers the flight and, if it counts cost, its model has a price. */
  predicate Chargeable(config: Config, meter: Meter, flight: Flight) {
    Covers(meter, flight.keyId, flight.route) &&
    (meter.CostMeter? ==> Priced(flight.route.upstreamModel, config.prices))
  }

  /** Flights that will be charged to the meter in a given period. */
  ghost function Pending(config: Config, meter: Meter, w: World, period: int): set<string> {
    set id | id in w.flights && Chargeable(config, meter, w.flights[id])
      && MonthlyPeriodStart(w.flights[id].startedAt, config.resetDay) == Some(period)
  }

  /** What a reply costs at the model's prices, not rounded: price units per
      million-token price times tokens, a hundredth of a cent being 100 million. */
  function ExactCost(price: Price, usage: Usage): nat {
    (if usage.prompt.Some? && usage.prompt.value > 0 then usage.prompt.value * price.input else 0)
    + (if usage.completion.Some? && usage.completion.value > 0 then usage.completion.value * price.output else 0)
  }

  /** The usage a reply reports is at most `most` for the meter: that many tokens
      in total, or prompt and completion worth at most that many hundredths of a
      cent, give or take the rounding. */
  predicate ReportsAtMost(config: Config, meter: Meter, flight: Flight, usage: Usage, most: nat) {
    match meter
    case TokenMeter(_) => usage.total.Some? ==> usage.total.value <= most
    case CostMeter(_) =>
      flight.route.upstreamModel.Some? && flight.route.upstreamModel.value in config.prices ==>
        2 * ExactCost(config.prices[flight.route.upstreamModel.value], usage) < (2 * most + 1) * 100_000_000
  }

  ghost predicate StepCharges(config: Config, meter: Meter, w: World, step: Step, most: nat) {
    step.Finish? && step.id in w.flights && Covers(meter, w.flights[step.id].keyId, w.flights[step.id].route) ==>
      ReportsAtMost(config, meter, w.flights[step.id], step.usage, most)
  }

  /** The record of a reply charges its tokens as reported to the key's token
      meter, and to a cost meter the reported prompt and completion at their own
      prices, to the nearest hundredth of a cent; a flight the meter does not
      cover it does not charge. */
  lemma RecordedAsReported(config: Config, meter: Meter, id: string, flight: Flight, usage: Usage)
    ensures var charged := Charge(meter, Row(config, id, flight, true, usage));
            var model := flight.route.upstreamModel;
            && (!Covers(meter, flight.keyId, flight.route) ==> charged == 0)
            && (Covers(meter, flight.keyId, flight.route) && meter.TokenMeter? ==>
                  charged == if usage.total.Some? then usage.total.value else 0)
            && (Covers(meter, flight.keyId, flight.route) && meter.CostMeter? ==>
                  if config.enabled && model.Some? && model.value != "" && model.value in config.prices
                     && (usage.prompt.Some? || usage.completion.Some?)
                  then -100_000_000 < 2 * (charged * 100_000_000 - ExactCost(config.prices[model.value], usage)) <= 100_000_000
                  else charged == 0)
  {
    var model := flight.route.upstreamModel;
    if Priced(model, config.prices) {
      var amount := Microdollars(usage, config.prices[model.value]);
      HalfUpIsNearest(amount, HalfUp(amount));
    }
  }

  lemma ChargedAtMost(config: Config, meter: Meter, id: string, flight: Flight, usage: Usage, most: nat)
    requires Covers(meter, flight.keyId, flight.route) ==> ReportsAtMost(config, meter, flight, usage, most)
    ensures Charge(meter, Row(config, id, flight, true, usage)) <= most
  {
    RecordedAsReported(config, meter, id, flight, usage);
  }

  /** Along the run at most `flights` requests the meter covers are in flight at
      once, and none of their replies reports more than `most`. */
  ghost predicate WithinLoad(config: Config, meter: Meter, w: World, steps: seq<Step>, flights: nat, most: nat)
    decreases steps
  {
    |InFlight(meter, w)| <= flights &&
    (steps != [] ==>
       && StepCharges(config, meter, w, steps[0], most)
       && WithinLoad(config, meter, Apply(config, w, steps[0]), steps[1..], flights, most))
  }

  /** `limit` is what the configuration sets for the meter, for every request it covers. */
  ghost predicate Limited(config: Config, meter: Meter, limit: int) {
    config.enabled &&
    match meter
    case TokenMeter(k) => k != "" && k in config.keys && config.keys[k].tokenLimit == Some(limit)
    case CostMeter(KeyScope(k)) => k != "" && k in config.keys && config.keys[k].budgetCents == Some(limit)
    case CostMeter(GlobalScope) => config.globalBudgetCents == Some(limit)
    case CostMeter(ProviderScope(kind)) =>
      kind != "" && kind in config.providerBudgetCents && config.providerBudgetCents[kind] == limit
  }

  /** A request the meter will charge is admitted only while the meter is below its limit. */
  lemma AdmissionMeansBelow(config: Config, meter: Meter, limit: int, w: World, caller: Caller, route: Route)
    requires Sane(config, w) && Limited(config, meter, limit)
    requires Chargeable(config, meter, Flight(caller.key, route, w.now))
    ensures MonthlyPeriodStart(w.now, config.resetDay).Some?
    ensures Gate(config, w.audit, caller, route, w.now) == Admitted ==>
              ChargedIn(config, meter, w.audit, MonthlyPeriodStart(w.now, config.resetDay).value) < Units(meter, limit)
  {
    PeriodExists(w.now, config.resetDay);
    if Gate(config, w.audit, caller, route, w.now) == Admitted {
      var since := MonthlyPeriodStart(w.now, config.resetDay).value;
      GatePassesIff(config, w.audit, caller, route, w.now);
      assert BelowLimit(config, w.audit, caller, route, since, meter);
      QuerySumsThisPeriod(config, meter, w.audit, w.now);
    }
  }

  // ---- Safety ------------------------------------------------------------------

  /** The most that n replies can charge: n * most, counted up. */
  function Reserve(most: nat, n: nat): nat {
    if n == 0 then 0 else most + Reserve(most, n - 1)
  }

  lemma {:induction false} ReserveIsProduct(most: nat, n: nat)
    ensures Reserve(most, n) == n * most
  {
    if n > 0 {
      ReserveIsProduct(most, n - 1);
    }
  }

  lemma {:induction false} ReserveMonotone(most: nat, a: nat, b: nat)
    requires a <= b
    ensures Reserve(most, a) <= Reserve(most, b)
  {
    if a < b {
      ReserveMonotone(most, a, b - 1);
    }
  }

  datatype Bound = Bound(config: Config, meter: Meter, limit: int, flights: nat, most: nat)

  /** A period's charge, with the most its pending flights can still add, stays
      within limit - 1 plus the reserve of a full house. */
  ghost predicate WithinBound(b: Bound, w: World, p: int) {
    ChargedIn(b.config, b.meter, w.audit, p) + Reserve(b.most, |Pending(b.config, b.meter, w, p)|)
    <= Units(b.meter, b.limit) - 1 + Reserve(b.most, b.flights)
  }

  ghost predicate Covered(b: Bound, w: World) {
    forall p :: WithinBound(b, w, p)
  }

  lemma ChargedInAppend(config: Config, meter: Meter, audit: seq<AuditRow>, row: AuditRow, p: int)
    ensures ChargedIn(config, meter, audit + [row], p)
            == ChargedIn(config, meter, audit, p) + if InPeriod(config, row, p) then Charge(meter, row) else 0
  {
    assert (audit + [row])[..|audit|] == audit;
  }

  lemma NoUsageNoCharge(config: Config, meter: Meter, id: string, flight: Flight, success: bool)
    ensures Charge(meter, Row(config, id, flight, success, NO_USAGE)) == 0
  {
  }

  /** A row without usage changes no period's charge. */
  lemma UnchargedRowKeepsBound(b: Bound, w: World, row: AuditRow, p: int)
    requires WithinBound(b, w, p) && Charge(b.meter, row) == 0
    ensures WithinBound(b, w.(audit := w.audit + [row]), p)
  {
    ChargedInAppend(b.config, b.meter, w.audit, row, p);
    assert Pending(b.config, b.meter, w.(audit := w.audit + [row]), p) == Pending(b.config, b.meter, w, p);
  }

  lemma TakeoffKeepsBound(b: Bound, w: World, id: string, caller: Caller, route: Route, p: int)
    requires Sane(b.config, w) && Limited(b.config, b.meter, b.limit) && WithinBound(b, w, p)
    requires id !in w.flights && Gate(b.config, w.audit, caller, route, w.now) == Admitted
    requires var w' := w.(flights := w.flights[id := Flight(caller.key, route, w.now)]);
             |InFlight(b.meter, w')| <= b.flights
    ensures WithinBound(b, w.(flights := w.flights[id := Flight(caller.key, route, w.now)]), p)
  {
    var w' := w.(flights := w.flights[id := Flight(caller.key, route, w.now)]);
    if id in Pending(b.config, b.meter, w', p) {
      AdmissionMeansBelow(b.config, b.meter, b.limit, w, caller, route);
      SubsetSize(Pending(b.config, b.meter, w', p), InFlight(b.meter, w'));
      ReserveMonotone(b.most, |Pending(b.config, b.meter, w', p)|, b.flights);
    } else {
      assert Pending(b.config, b.meter, w', p) == Pending(b.config, b.meter, w, p);
    }
  }

  /** A landing flight gives up its share of the reserve and charges at most that. */
  lemma LandingKeepsBound(b: Bound, w: World, id: string, row: AuditRow, p: int)
    requires WithinBound(b, w, p) && id in w.flights
    requires row.startedAt == w.flights[id].startedAt && Charge(b.meter, row) <= b.most
    requires Charge(b.meter, row) == 0 || Chargeable(b.config, b.meter, w.flights[id])
    ensures WithinBound(b, w.(audit := w.audit + [row], flights := w.flights - {id}), p)
  {
    var w' := w.(audit := w.audit + [row], flights := w.flights - {id});
    ChargedAfterLanding(b, w, id, row, p);
    PendingAfterLanding(b.config, b.meter, w, w', id, p);
    var before, after := Pending(b.config, b.meter, w, p), Pending(b.config, b.meter, w', p);
    if id in before {
      assert Reserve(b.most, |before|) == b.most + Reserve(b.most, |after|);
    }
  }

  lemma ChargedAfterLanding(b: Bound, w: World, id: string, row: AuditRow, p: int)
    requires id in w.flights
    requires row.startedAt == w.flights[id].startedAt && Charge(b.meter, row) <= b.most
    requires Charge(b.meter, row) == 0 || Chargeable(b.config, b.meter, w.flights[id])
    ensures ChargedIn(b.config, b.meter, w.audit + [row], p)
            <= ChargedIn(b.config, b.meter, w.audit, p) + if id in Pending(b.config, b.meter, w, p) then b.most else 0
  {
    ChargedInAppend(b.config, b.meter, w.audit, row, p);
  }

  lemma PendingAfterLanding(config: Config, meter: Meter, w: World, w': World, id: string, p: int)
    requires id in w.flights && w'.flights == w.flights - {id}
    ensures |Pending(config, meter, w, p)| == |Pending(config, meter, w', p)| + if id in Pending(config, meter, w, p) then 1 else 0
  {
    assert Pending(config, meter, w', p) == Pending(config, meter, w, p) - {id};
  }

  lemma ApplyKeepsCovered(b: Bound, w: World, step: Step)
    requires Sane(b.config, w) && Limited(b.config, b.meter, b.limit)
    requires Covered(b, w) && StepCharges(b.config, b.meter, w, step, b.most)
    requires |InFlight(b.meter, Apply(b.config, w, step))| <= b.flights
    ensures Covered(b, Apply(b.config, w, step))
  {
    var w' := Apply(b.config, w, step);
    forall p ensures WithinBound(b, w', p) {
      assert WithinBound(b, w, p);
      match step {
        case Tick(_) => assert Pending(b.config, b.meter, w', p) == Pending(b.config, b.meter, w, p);
        case Arrive(id, caller, route, _) => ArriveKeepsBound(b, w, step, p);
        case Refuse(id, caller, route) =>
          var row := Row(b.config, id, Flight(caller.key, route, w.now), false, NO_USAGE);
          NoUsageNoCharge(b.config, b.meter, id, Flight(caller.key, route, w.now), false);
          UnchargedRowKeepsBound(b, w, row, p);
        case Finish(id, usage) =>
          if id in w.flights {
            ChargedAtMost(b.config, b.meter, id, w.flights[id], usage, b.most);
            LandingKeepsBound(b, w, id, Row(b.config, id, w.flights[id], true, usage), p);
          }
        case Fail(id) =>
          if id in w.flights {
            NoUsageNoCharge(b.config, b.meter, id, w.flights[id], false);
            LandingKeepsBound(b, w, id, Row(b.config, id, w.flights[id], false, NO_USAGE), p);
          }
      }
    }
  }

  lemma ArriveKeepsBound(b: Bound, w: World, step: Step, p: int)
    requires step.Arrive? && Sane(b.config, w) && Limited(b.config, b.meter, b.limit) && WithinBound(b, w, p)
    requires |InFlight(b.meter, Apply(b.config, w, step))| <= b.flights
    ensures WithinBound(b, Apply(b.config, w, step), p)
  {
    var w' := Apply(b.config, w, step);
    var flight := Flight(step.caller.key, step.route, w.now);
    if w' != w {
      if w'.flights != w.flights {
        TakeoffKeepsBound(b, w, step.id, step.caller, step.route, p);
      } else {
        NoUsageNoCharge(b.config, b.meter, step.id, flight, w'.audit[|w.audit|].success);
        UnchargedRowKeepsBound(b, w, w'.audit[|w.audit|], p);
      }
    }
  }

  lemma {:induction false} RunKeepsCovered(b: Bound, w: World, steps: seq<Step>)
    requires Sane(b.config, w) && Limited(b.config, b.meter, b.limit) && Covered(b, w)
    requires WithinLoad(b.config, b.meter, w, steps, b.flights, b.most)
    ensures Covered(b, Run(b.config, w, steps))
    decreases steps
  {
    if steps != [] {
      ApplyKeepsSane(b.config, w, steps[0]);
      ApplyKeepsCovered(b, w, steps[0]);
      RunKeepsCovered(b, Apply(b.config, w, steps[0]), steps[1..]);
    }
  }

  /** Whatever the interleaving, with at most `flights` covered requests in
      flight and at most `most` reported per reply, no period is ever charged
      more than limit - 1 + flights * most. */
  lemma OvershootIsBounded(config: Config, meter: Meter, limit: int, w: World, steps: seq<Step>, flights: nat, most: nat, period: int)
    requires Initial(w) && Limited(config, meter, limit) && limit >= 1
    requires WithinLoad(config, meter, w, steps, flights, most)
    ensures ChargedIn(config, meter, Run(config, w, steps).audit, period) <= Units(meter, limit) - 1 + flights * most
  {
    var b := Bound(config, meter, limit, flights, most);
    forall p ensures WithinBound(b, w, p) {
      assert Pending(config, meter, w, p) == {};
    }
    RunKeepsCovered(b, w, steps);
    assert WithinBound(b, Run(config, w, steps), period);
    ReserveIsProduct(most, flights);
  }

  // ---- Once exhausted, closed until the reset -------------------------------------

  lemma ApplyNeverUncharges(config: Config, meter: Meter, w: World, step: Step, p: int)
    ensures ChargedIn(config, meter, Apply(config, w, step).audit, p) >= ChargedIn(config, meter, w.audit, p)
  {
    var w' := Apply(config, w, step);
    if w'.audit != w.audit {
      ChargedInAppend(config, meter, w.audit, w'.audit[|w.audit|], p);
    }
  }

  lemma {:induction false} RunNeverUncharges(config: Config, meter: Meter, w: World, steps: seq<Step>, p: int)
    requires Sane(config, w)
    ensures ChargedIn(config, meter, Run(config, w, steps).audit, p) >= ChargedIn(config, meter, w.audit, p)
    ensures Sane(config, Run(config, w, steps))
    decreases steps
  {
    if steps != [] {
      ApplyNeverUncharges(config, meter, w, steps[0], p);
      ApplyKeepsSane(config, w, steps[0]);
      RunNeverUncharges(config, meter, Apply(config, w, steps[0]), steps[1..], p);
    }
  }

  /** Once a period's recorded usage reaches the limit, no further request the
      meter charges is admitted in that period, whatever happens in between. */
  lemma ExhaustedStaysClosed(config: Config, meter: Meter, limit: int, w: World, steps: seq<Step>, caller: Caller, route: Route)
    requires Sane(config, w) && Limited(config, meter, limit)
    requires Chargeable(config, meter, Flight(caller.key, route, w.now))
    ensures var w', p := Run(config, w, steps), MonthlyPeriodStart(w.now, config.resetDay);
            && p.Some?
            && (ChargedIn(config, meter, w.audit, p.value) >= Units(meter, limit)
                && MonthlyPeriodStart(w'.now, config.resetDay) == p
                ==> Gate(config, w'.audit, caller, route, w'.now) != Admitted)
  {
    PeriodExists(w.now, config.resetDay);
    RunNeverUncharges(config, meter, w, steps, MonthlyPeriodStart(w.now, config.resetDay).value);
    AdmissionMeansBelow(config, meter, limit, Run(config, w, steps), caller, route);
  }
}
