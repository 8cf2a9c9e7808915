/** The handlers' side of the budget protocol: the gate as a loop over limits,
    and the two synchronous halves of a request around its upstream await. */
module Ledger {
  import opened Common
  import opened Calendar
  import opened Pricing
  import opened Budget
  import opened BudgetRuns

  class RequestLedger {
    const config: Config
    var audit: seq<AuditRow>
    var flights: map<string, Flight>   // handlers suspended at their upstream call

    constructor (config: Config)
      ensures this.config == config && audit == [] && flights == map[]
    {
      this.config := config;
      audit, flights := [], map[];
    }

    function WorldAt(now: int): World
      reads this
    {
      World(now, audit, flights)
    }

    method EnforceRequestBudget(caller: Caller, route: Route, now: int) returns (decision: Decision)
      ensures decision == Gate(config, audit, caller, route, now)
    {
      if !config.enabled {
        return Admitted;
      }
      var period := MonthlyPeriodStart(now, config.resetDay);
      if period.None? {
        return NoPeriod;
      }
      var since := period.value;
      var key := NamedKey(config, caller);
      if key.Some? && key.value.tokenLimit.Some? {
        var used := UsedSince(TokenMeter(caller.key.value), audit, since);
        if used >= key.value.tokenLimit.value {
          return TokensExhausted(caller.key.value, used, key.value.tokenLimit.value);
        }
      }
      var limits := CollectCostLimits(caller, route);
      if limits == [] {
        return Admitted;
      }
      var estimated := EstimatedCost(route.upstreamModel, ZERO_USAGE, config.prices);
      if estimated.None? {
        return if config.denyOnUnknownCost then UnknownCost(route.upstreamModel) else Admitted;
      }
      decision := FirstExhausted(limits, since);
    }

    method CollectCostLimits(caller: Caller, route: Route) returns (limits: seq<(Scope, int)>)
      ensures limits == CostLimits(config, caller, route)
    {
      limits := [];
      var key := NamedKey(config, caller);
      if key.Some? && key.value.budgetCents.Some? {
        limits := limits + [(KeyScope(caller.key.value), key.value.budgetCents.value)];
      }
      if config.globalBudgetCents.Some? {
        limits := limits + [(GlobalScope, config.globalBudgetCents.value)];
      }
      if route.providerKind.Some? && route.providerKind.value != "" && route.providerKind.value in config.providerBudgetCents {
        limits := limits + [(ProviderScope(route.providerKind.value), config.providerBudgetCents[route.providerKind.value])];
      }
    }

    method FirstExhausted(limits: seq<(Scope, int)>, since: int) returns (decision: Decision)
      ensures decision == CheckCosts(audit, since, limits)
    {
      for i := 0 to |limits|
        invariant CheckCosts(audit, since, limits) == CheckCosts(audit, since, limits[i..])
      {
        var (scope, limit) := limits[i];
        var used := UsedSince(CostMeter(scope), audit, since);
        assert limits[i..][0] == limits[i] && limits[i..][1..] == limits[i + 1..];
        if used >= 100 * limit {
          return CostExhausted(scope, used, limit);
        }
      }
      return Admitted;
    }

    method AuditRequest(id: string, flight: Flight, success: bool, usage: Usage)
      modifies this`audit
      ensures audit == old(audit) + [Row(config, id, flight, success, usage)]
    {
      var cost: Option<nat> := None;
      if config.enabled {
        cost := EstimatedCost(flight.route.upstreamModel, usage, config.prices);
      }
      audit := audit + [AuditRow(id, flight.keyId, flight.route, flight.startedAt, success, usage.total, cost)];
    }

    /** The handler up to its upstream call: one step of the state machine. */
    method Arrive(id: string, caller: Caller, route: Route, streaming: bool, now: int) returns (decision: Decision)
      requires Fresh(WorldAt(now), id)
      modifies this
      ensures decision == Gate(config, old(audit), caller, route, now)
      ensures WorldAt(now) == Apply(config, old(WorldAt(now)), Step.Arrive(id, caller, route, streaming))
    {
      var flight := Flight(caller.key, route, now);
      decision := EnforceRequestBudget(caller, route, now);
      match decision {
        case NoPeriod =>
        case Admitted =>
          if streaming {
            AuditRequest(id, flight, true, NO_USAGE);
          } else {
            flights := flights[id := flight];
          }
        case _ =>
          AuditRequest(id, flight, false, NO_USAGE);
      }
    }

    /** A request turned away before the gate is audited without usage. */
    method Refuse(id: string, caller: Caller, route: Route, now: int)
      requires Fresh(WorldAt(now), id)
      modifies this
      ensures WorldAt(now) == Apply(config, old(WorldAt(now)), Step.Refuse(id, caller, route))
    {
      AuditRequest(id, Flight(caller.key, route, now), false, NO_USAGE);
    }

    /** The handler after its upstream reply, or after the upstream failed. */
    method Settle(id: string, reply: Option<Usage>, now: int)
      requires id in flights
      modifies this
      ensures WorldAt(now) == Apply(config, old(WorldAt(now)), match reply case Some(u) => Finish(id, u) case None => Fail(id))
    {
      var flight := flights[id];
      flights := flights - {id};
      match reply {
        case Some(usage) => AuditRequest(id, flight, true, usage);
        case None => AuditRequest(id, flight, false, NO_USAGE);
      }
    }
  }
}
