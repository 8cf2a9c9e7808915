/** What the protocol leaves in the audit log: every request once, charged with
    what its reply reported and nothing else. */
module Recording {
  import opened Common
  import opened Json
  import opened Calendar
  import opened Pricing
  import opened Budget
  import opened BudgetRuns

  // ---- One reply ----------------------------------------------------------------------

  lemma UsedSinceAppend(meter: Meter, audit: seq<AuditRow>, row: AuditRow, since: int)
    ensures UsedSince(meter, audit + [row], since)
            == UsedSince(meter, audit, since) + if row.startedAt >= since then Charge(meter, row) else 0
  {
    assert (audit + [row])[..|audit|] == audit;
  }

  /** Whom a meter is for: a key's meters for requests of that key, the global
      one for all, a provider's for requests routed to that provider. */
  predicate Concerns(meter: Meter, flight: Flight) {
    match meter
    case TokenMeter(k) => flight.keyId.Some? && flight.keyId.value == k
    case CostMeter(KeyScope(k)) => flight.keyId.Some? && flight.keyId.value == k
    case CostMeter(GlobalScope) => true
    case CostMeter(ProviderScope(p)) => flight.route.providerKind.Some? && flight.route.providerKind.value == p
  }

  /** A reply raises a meter's query by what it reports, if the meter concerns
      the request and the request started in the queried time, and else by
      nothing: tokens exactly, cost to the nearest hundredth of a cent at the
      prices of the model sent upstream. */
  lemma ReplyIsCharged(config: Config, w: World, id: string, usage: Usage, meter: Meter, since: int)
    requires id in w.flights
    ensures var flight, after := w.flights[id], Apply(config, w, Finish(id, usage));
            var raised := UsedSince(meter, after.audit, since) - UsedSince(meter, w.audit, since);
            var model := flight.route.upstreamModel;
            if !Concerns(meter, flight) || flight.startedAt < since then raised == 0
            else if meter.TokenMeter? then raised == if usage.total.Some? then usage.total.value else 0
            else if !config.enabled || model.None? || model.value == "" || model.value !in config.prices then raised == 0
            else if usage.prompt.None? && usage.completion.None? then raised == 0
            else -100_000_000 < 2 * (raised * 100_000_000 - ExactCost(config.prices[model.value], usage)) <= 100_000_000
  {
    var flight := w.flights[id];
    var row := Row(config, id, flight, true, usage);
    UsedSinceAppend(meter, w.audit, row, since);
    RecordedAsReported(config, meter, id, flight, usage);
    assert Covers(meter, flight.keyId, flight.route) <==> Concerns(meter, flight);
  }

  /** Down to the reply itself: with 9000 prompt and 10 completion tokens, or
      any others, the total it states is what the key's tokens go up by. */
  lemma StatedTotalIsCharged(config: Config, w: World, id: string, response: Json, k: string, since: int, total: nat)
    requires id in w.flights && w.flights[id].keyId == Some(k) && w.flights[id].startedAt >= since
    requires response.Obj? && "usage" in response.fields && response.fields["usage"].Obj?
    requires var usage := response.fields["usage"].fields; "total_tokens" in usage && usage["total_tokens"] == Num(total as real)
    ensures UsedSince(TokenMeter(k), Apply(config, w, Finish(id, UsageOf(response))).audit, since)
            == UsedSince(TokenMeter(k), w.audit, since) + total
  {
    ReplyIsCharged(config, w, id, UsageOf(response), TokenMeter(k), since);
  }

  /** Nothing else raises any meter. */
  lemma OnlyRepliesAreCharged(config: Config, w: World, step: Step, meter: Meter, since: int)
    requires !step.Finish?
    ensures UsedSince(meter, Apply(config, w, step).audit, since) == UsedSince(meter, w.audit, since)
  {
    hide Gate, UsedSince;
    var after := Apply(config, w, step);
    if after.audit != w.audit {
      var row := after.audit[|w.audit|];
      assert after.audit == w.audit + [row];
      UsedSinceAppend(meter, w.audit, row, since);
      UnusedRow(config, w, step, meter);
    }
  }

  lemma UnusedRow(config: Config, w: World, step: Step, meter: Meter)
    requires !step.Finish? && Apply(config, w, step).audit != w.audit
    ensures Charge(meter, Apply(config, w, step).audit[|w.audit|]) == 0
  {
    hide Gate;
  }

  // ---- What one step records --------------------------------------------------------------

  /** The row says who asked, where it went, when it began and how it ended. */
  predicate Tells(row: AuditRow, id: string, keyId: Option<string>, route: Route, startedAt: int, success: bool) {
    && row.requestId == id && row.keyId == keyId && row.route == route
    && row.startedAt == startedAt && row.success == success
  }

  ghost predicate Recorded(before: World, after: World, id: string, keyId: Option<string>, route: Route, startedAt: int, success: bool) {
    && |after.audit| == |before.audit| + 1 && after.audit[..|before.audit|] == before.audit
    && Tells(after.audit[|before.audit|], id, keyId, route, startedAt, success)
  }

  /** A new request goes aloft if it is admitted, is recorded as a success if it
      is a stream, and as a failure if the gate refuses it. */
  lemma ArrivalIsRecorded(config: Config, w: World, id: string, caller: Caller, route: Route, streaming: bool)
    requires Sane(config, w) && Fresh(w, id)
    ensures var after := Apply(config, w, Arrive(id, caller, route, streaming));
            var admitted := Gate(config, w.audit, caller, route, w.now) == Admitted;
            if admitted && !streaming
            then && after.audit == w.audit && after.flights.Keys == w.flights.Keys + {id}
                 && after.flights[id] == Flight(caller.key, route, w.now)
                 && forall other | other in w.flights :: after.flights[other] == w.flights[other]
            else after.flights == w.flights && Recorded(w, after, id, caller.key, route, w.now, admitted)
  {
    PeriodExists(w.now, config.resetDay);
    GatePassesIff(config, w.audit, caller, route, w.now);
    SaneGateDecides(config, w, caller, route);
  }

  lemma SaneGateDecides(config: Config, w: World, caller: Caller, route: Route)
    requires Sane(config, w)
    ensures !Gate(config, w.audit, caller, route, w.now).NoPeriod?
  {
    PeriodExists(w.now, config.resetDay);
    if config.enabled {
      var since := MonthlyPeriodStart(w.now, config.resetDay).value;
      CheckCostsPassesIff(w.audit, since, CostLimits(config, caller, route));
    }
  }

  /** A request turned away before the gate is recorded as a failure. */
  lemma RefusalIsRecorded(config: Config, w: World, id: string, caller: Caller, route: Route)
    requires Fresh(w, id)
    ensures var after := Apply(config, w, Step.Refuse(id, caller, route));
            after.flights == w.flights && Recorded(w, after, id, caller.key, route, w.now, false)
  {
  }

  /** What lands is recorded as it took off, with the outcome, and is in flight
      no longer. */
  lemma LandingIsRecorded(config: Config, w: World, id: string, usage: Usage, replied: bool)
    requires id in w.flights
    ensures var flight, after := w.flights[id], Apply(config, w, if replied then Finish(id, usage) else Fail(id));
            && after.flights == w.flights - {id}
            && Recorded(w, after, id, flight.keyId, flight.route, flight.startedAt, replied)
  {
  }

  // ---- Every request once ------------------------------------------------------------------

  /** The ids a run has seen. */
  function Seen(steps: seq<Step>): set<string> {
    if steps == [] then {}
    else
      Seen(steps[..|steps| - 1]) +
      match steps[|steps| - 1]
      case Arrive(id, _, _, _) => {id}
      case Refuse(id, _, _) => {id}
      case _ => {}
  }

  function Logged(audit: seq<AuditRow>): set<string> {
    set i | 0 <= i < |audit| :: audit[i].requestId
  }

  ghost predicate OnceEach(w: World) {
    && (forall i, j | 0 <= i < j < |w.audit| :: w.audit[i].requestId != w.audit[j].requestId)
    && Logged(w.audit) !! w.flights.Keys
    && forall i | 0 <= i < |w.audit| && !w.audit[i].success :: w.audit[i].totalTokens == None && w.audit[i].cost == None
  }

  lemma LoggedAppend(audit: seq<AuditRow>, row: AuditRow)
    ensures Logged(audit + [row]) == Logged(audit) + {row.requestId}
  {
    var more := audit + [row];
    assert more[|audit|] == row;
    assert forall i | 0 <= i < |audit| :: more[i] == audit[i];
  }

  lemma AppendOnce(w: World, row: AuditRow, flights: map<string, Flight>)
    requires OnceEach(w) && row.requestId !in Logged(w.audit) && row.requestId !in flights
    requires flights.Keys <= w.flights.Keys && (!row.success ==> row.totalTokens == None && row.cost == None)
    ensures OnceEach(World(w.now, w.audit + [row], flights))
  {
    LoggedAppend(w.audit, row);
    assert forall i | 0 <= i < |w.audit| :: w.audit[i].requestId in Logged(w.audit);
  }

  lemma StepKeepsOnceEach(config: Config, w: World, step: Step)
    requires Sane(config, w) && OnceEach(w)
    ensures var after := Apply(config, w, step);
            && OnceEach(after)
            && Logged(after.audit) + after.flights.Keys == Logged(w.audit) + w.flights.Keys + Seen([step])
  {
    hide Gate, OnceEach, Logged, Sane;
    var after := Apply(config, w, step);
    SeenOne(step);
    if step.Arrive? {
      SaneGateDecides(config, w, step.caller, step.route);
      FreshIsNew(w, step.id);
    } else if step.Refuse? {
      FreshIsNew(w, step.id);
    }
    if after.audit != w.audit {
      var row := after.audit[|w.audit|];
      assert after == World(w.now, w.audit + [row], after.flights);
      LoggedAppend(w.audit, row);
      RowAddsOnce(w, row, after.flights);
    } else if after.flights != w.flights {
      FlightAddsOnce(w, step.id, after);
    } else {
      SameKeepsOnce(w, after);
    }
  }

  lemma SeenOne(step: Step)
    ensures Seen([step]) == match step
                            case Arrive(id, _, _, _) => {id}
                            case Refuse(id, _, _) => {id}
                            case _ => {}
  {
    assert [step][..|[step]| - 1] == [] && Seen([]) == {};
  }

  lemma FreshIsNew(w: World, id: string)
    ensures Fresh(w, id) <==> id !in w.flights && id !in Logged(w.audit)
  {
  }

  /** A row for a new id, or for one that lands. */
  lemma RowAddsOnce(w: World, row: AuditRow, flights: map<string, Flight>)
    requires OnceEach(w) && (!row.success ==> row.totalTokens == None && row.cost == None)
    requires (row.requestId !in Logged(w.audit) && row.requestId !in w.flights && flights == w.flights)
             || (row.requestId in w.flights && flights == w.flights - {row.requestId})
    ensures OnceEach(World(w.now, w.audit + [row], flights))
  {
    AppendOnce(w, row, flights);
  }

  lemma FlightAddsOnce(w: World, id: string, after: World)
    requires OnceEach(w) && id !in Logged(w.audit)
    requires after.audit == w.audit && after.flights.Keys == w.flights.Keys + {id}
    ensures OnceEach(after)
  {
  }

  lemma SameKeepsOnce(w: World, after: World)
    requires OnceEach(w) && after.audit == w.audit && after.flights == w.flights
    ensures OnceEach(after)
  {
  }

  /** Over every run each request seen is, at the end, either in flight or in
      the log, and there exactly once; nothing else is; and failures are logged
      without usage. */
  lemma {:induction false} EveryRequestOnce(config: Config, w: World, steps: seq<Step>)
    requires Initial(w)
    ensures var end := Run(config, w, steps);
            && OnceEach(end) && Sane(config, end)
            && Logged(end.audit) + end.flights.Keys == Seen(steps)
    decreases |steps|
  {
    if steps != [] {
      var front, last := steps[..|steps| - 1], steps[|steps| - 1];
      EveryRequestOnce(config, w, front);
      var before := Run(config, w, front);
      assert steps == front + [last];
      RunLast(config, w, front, last);
      ApplyKeepsSane(config, before, last);
      StepKeepsOnceEach(config, before, last);
      assert [last][..|[last]| - 1] == [];
    }
  }

  lemma {:induction false} RunLast(config: Config, w: World, front: seq<Step>, last: Step)
    ensures Run(config, w, front + [last]) == Apply(config, Run(config, w, front), last)
    decreases |front|
  {
    if front == [] {
      assert [] + [last] == [last] && [last][1..] == [];
    } else {
      assert (front + [last])[1..] == front[1..] + [last];
      RunLast(config, Apply(config, w, front[0]), front[1..], last);
    }
  }
}
