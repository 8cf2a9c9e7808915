/** The chat endpoint up to its upstream call: audit metadata, authorization,
    the budget gate, and the request actually sent. */
module Chat {
  import opened Common
  import opened Json
  import opened Entities
  import opened DeepMerge
  import opened RequestPolicy
  import opened Selection
  import opened Routing
  import opened Fairness
  import Registry
  import Budget
  import BudgetRuns
  import Pricing
  import Ledger
  import Recording

  datatype ProxyError = MissingModel | UnknownModel | NoHealthyTarget

  type Prepared = Result<(Service, Json), ProxyError>

  predicate Falsy(j: Json) {
    match j
    case Null => true
    case Bool(b) => !b
    case Num(n) => n == 0.0
    case Str(s) => s == ""
    case Arr(items) => items == []
    case Obj(fields) => fields == map[]
  }

  /** The role whose policy applies is the requested one, also when a fallback serves. */
  function RoleOf(r: Resolution): Option<Role> {
    if r.ViaRole? then Some(r.role) else None
  }

  function PolicyFor(requested: string, service: Service, role: Option<Role>): Option<Policy> {
    var combined := Combined(ChatLayers(requested, service, role));
    if combined == EMPTY then None else Some(combined)
  }

  function UpstreamBody(body: Json, requested: string, service: Service, role: Option<Role>): Json
    requires body.Obj?
  {
    Obj(Shaped(body, PolicyFor(requested, service, role)).fields
        ["model" := Str(ChooseUpstreamModelId(requested, service.assets))])
  }

  function Prepare(snap: Snapshot, counters: Counters, body: Json): (Prepared, Counters)
    requires body.Obj?
  {
    var model := Get(body, "model");
    if Falsy(model) then (Err(MissingModel), counters)
    else if !model.Str? then (Err(UnknownModel), counters)
    else
      var out := ResolveRoute(snap, counters, model.s, Some(Kind.Chat));
      var r := out.resolution;
      (if r.Unknown? then Err(UnknownModel)
       else if Served(r).None? then Err(NoHealthyTarget)
       else Ok((Served(r).value, UpstreamBody(body, model.s, Served(r).value, RoleOf(r)))),
       out.counters)
  }

  method PrepareChatUpstream(registry: Registry.Registry, body: Json) returns (prepared: Prepared)
    requires registry.Valid() && body.Obj?
    modifies registry`rrCounters
    ensures (prepared, registry.rrCounters) == Prepare(registry.Snap(), old(registry.rrCounters), body)
  {
    var model := Get(body, "model");
    if Falsy(model) {
      return Err(MissingModel);
    }
    if !model.Str? {
      return Err(UnknownModel);
    }
    var resolved := registry.ResolveRoute(model.s, Some(Kind.Chat), null);
    if resolved.Unknown? {
      return Err(UnknownModel);
    }
    var service := Served(resolved);
    if service.None? {
      return Err(NoHealthyTarget);
    }
    var combined := MergeRequestPolicies(ChatLayers(model.s, service.value, RoleOf(resolved)));
    var upstreamBody := ApplyRequestPolicy(body, combined);
    upstreamBody := Obj(upstreamBody.fields["model" := Str(ChooseUpstreamModelId(model.s, service.value.assets))]);
    return Ok((service.value, upstreamBody));
  }

  // ---- What is sent upstream ------------------------------------------------------

  /** A shaped body names the asset whose policy shaped it, keeps every leaf the
      client set outside `model` and `messages`, and keeps the conversation. */
  lemma UpstreamBodyIsFaithful(body: Json, requested: string, service: Service, role: Option<Role>, path: seq<string>)
    requires body.Obj? && requested != ""
    requires path != [] && path[0] != "messages" && path[0] != "model"
    ensures SentFor(body, UpstreamBody(body, requested, service, role), service, requested, path)
  {
    var policy := PolicyFor(requested, service, role);
    PolicyAssetIsUpstreamAssetIff(requested, service.assets);
    if policy.Some? {
      ShapingKeepsClientValues(body, policy.value, path);
    }
    if Get(body, "messages").Arr? {
      ShapingKeepsConversation(body, policy);
    }
  }

  predicate SentFor(body: Json, sent: Json, service: Service, requested: string, path: seq<string>) {
    && sent.Obj?
    && Get(sent, "model") == Str(match SelectTargetAsset(service.assets, requested)
                                 case Some(a) => a.assetId
                                 case None => requested)
    && (Lookup(body, path).Some? && !Lookup(body, path).value.Obj? ==> Lookup(sent, path) == Lookup(body, path))
    && (Get(body, "messages").Arr? ==>
          Get(sent, "messages").Arr? &&
          Conversation(Dicts(Get(sent, "messages").items)) == Conversation(Dicts(Get(body, "messages").items)))
  }

  /** A prepared request goes to a service that is local to the id asked for, or
      to one reachable from it; it names the asset whose policy shaped it, and
      keeps the client's leaves outside `model` and `messages` and the client's
      conversation (its non-system messages) in order. */
  lemma UpstreamRequestIsFaithful(snap: Snapshot, counters: Counters, body: Json, path: seq<string>)
    requires body.Obj? && Prepare(snap, counters, body).0.Ok?
    requires path != [] && path[0] != "messages" && path[0] != "model"
    ensures Get(body, "model").Str?
    ensures var (service, sent) := Prepare(snap, counters, body).0.value;
            var requested := Get(body, "model").s;
            SentFor(body, sent, service, requested, path) && LocalWithin(snap, requested, Some(Kind.Chat), service)
  {
    hide UpstreamBody, ResolveRoute, SentFor, LocalWithin;
    var requested := Get(body, "model").s;
    var r := ResolveRoute(snap, counters, requested, Some(Kind.Chat)).resolution;
    UpstreamBodyIsFaithful(body, requested, Served(r).value, RoleOf(r), path);
    ServedIsLocalWithin(snap, counters, requested, Some(Kind.Chat));
  }

  /** Which requests are prepared, and which error the others get: one that
      names no model, one whose model nobody bears, and one whose role has no
      service left, neither of its own nor over its fallbacks. */
  lemma PreparedIff(snap: Snapshot, counters: Counters, body: Json)
    requires body.Obj?
    ensures var model, prepared := Get(body, "model"), Prepare(snap, counters, body).0;
            var found := model.Str? && (|| HasLocal(snap, model.s, Some(Kind.Chat))
                                        || exists x :: x != model.s && Reachable(snap, model.s, x) && HasLocal(snap, x, None));
            var missing := model == Null || model == Bool(false) || model == Num(0.0)
                           || model == Str("") || model == Arr([]) || model == Obj(map[]);
            && (prepared == Err(MissingModel) <==> missing)
            && (prepared.Ok? <==> !missing && found)
            && (prepared == Err(NoHealthyTarget) <==> !missing && !found && model.Str? && model.s in snap.roles)
            && (prepared == Err(UnknownModel) <==> !missing && !found && (model.Str? ==> model.s !in snap.roles))
  {
    if Get(body, "model").Str? {
      SearchIsComplete(snap, counters, Get(body, "model").s, Some(Kind.Chat));
    }
  }

  lemma ShapingKeepsConversation(body: Json, policy: Option<Policy>)
    requires body.Obj? && Get(body, "messages").Arr?
    ensures var shaped := Shaped(body, policy);
            && Get(shaped, "messages").Arr?
            && Conversation(Dicts(shaped.fields["messages"].items)) == Conversation(Dicts(body.fields["messages"].items))
  {
    if policy.Some? {
      var p := policy.value;
      var filled := Defaults(body, Obj(p.bodyDefaults));
      assert filled.fields["messages"] == body.fields["messages"] by {
        if "messages" in p.bodyDefaults {
          assert Defaults(body.fields["messages"], p.bodyDefaults["messages"]) == body.fields["messages"];
        }
      }
      if p.systemPrompt != "" {
        var kept := Dicts(body.fields["messages"].items);
        InjectionKeepsConversation(kept, p.systemPrompt, p.position);
        InjectedAreDicts(kept, p.systemPrompt, p.position, body.fields["messages"].items);
      }
    }
  }

  lemma InjectedAreDicts(kept: seq<Json>, prompt: string, position: Position, messages: seq<Json>)
    requires kept == Dicts(messages)
    ensures Dicts(Injected(kept, prompt, position)) == Injected(kept, prompt, position)
  {
    DictsAreObjects(messages);
    DictsStable(Injected(kept, prompt, position));
  }

  // ---- What is audited ------------------------------------------------------------

  /** The audit metadata of a resolution. */
  function AuditRoute(model: Json, r: Resolution): Budget.Route {
    if Falsy(model) || !model.Str? then Budget.Route(None, None, None, None)
    else
      match Served(r)
      case None => Budget.Route(Some(model.s), None, None, None)
      case Some(s) =>
        Budget.Route(Some(model.s), Some(s.serviceId), Some(ChooseUpstreamModelId(model.s, s.assets)), Some(s.protocol))
  }

  function Metadata(snap: Snapshot, counters: Counters, body: Json): (Budget.Route, Counters) {
    var model := Get(body, "model");
    if Falsy(model) || !model.Str? then (AuditRoute(model, Unknown), counters)
    else
      var out := ResolveRoute(snap, counters, model.s, Some(Kind.Chat));
      (AuditRoute(model, out.resolution), out.counters)
  }

  method RouteAuditMetadata(registry: Registry.Registry, body: Json) returns (route: Budget.Route)
    requires registry.Valid()
    modifies registry`rrCounters
    ensures (route, registry.rrCounters) == Metadata(registry.Snap(), old(registry.rrCounters), body)
  {
    var model := Get(body, "model");
    if Falsy(model) || !model.Str? {
      return AuditRoute(model, Unknown);
    }
    var resolved := registry.ResolveRoute(model.s, Some(Kind.Chat), null);
    return AuditRoute(model, resolved);
  }

  /** What is audited for a named model: the name, and the service found for it
      with its provider and the asset to be named upstream; or the name alone. */
  lemma AuditedRoute(snap: Snapshot, counters: Counters, body: Json)
    requires Get(body, "model").Str? && Get(body, "model").s != ""
    ensures var requested, route := Get(body, "model").s, Metadata(snap, counters, body).0;
            && route.requestedModel == Some(requested)
            && match Served(ResolveRoute(snap, counters, requested, Some(Kind.Chat)).resolution)
               case None => route.serviceId == None && route.upstreamModel == None && route.providerKind == None
               case Some(service) =>
                 && route.serviceId == Some(service.serviceId) && route.providerKind == Some(service.protocol)
                 && route.upstreamModel == Some(match SelectTargetAsset(service.assets, requested)
                                                case Some(a) => a.assetId
                                                case None => requested)
  {
    var requested := Get(body, "model").s;
    var served := Served(ResolveRoute(snap, counters, requested, Some(Kind.Chat)).resolution);
    if served.Some? {
      PolicyAssetIsUpstreamAssetIff(requested, served.value.assets);
    }
  }

  /** The model a request is priced as is the model it is sent as, whenever the
      audited service is the served one: always, except under round robin with
      a choice of services. */
  lemma BilledModelIsSentModel(snap: Snapshot, counters: Counters, body: Json)
    requires DistinctServices(snap.services)
    requires body.Obj? && Prepare(snap, Metadata(snap, counters, body).1, body).0.Ok?
    requires var server := Pooled(snap, Get(body, "model").s, Some(Kind.Chat));
             snap.strategy != RoundRobin || !server.Pool? || |server.running| == 1
    ensures var (service, sent) := Prepare(snap, Metadata(snap, counters, body).1, body).0.value;
            var route := Metadata(snap, counters, body).0;
            && route.requestedModel == Some(Get(body, "model").s)
            && route.serviceId == Some(service.serviceId)
            && route.providerKind == Some(service.protocol)
            && route.upstreamModel.Some? && sent.fields["model"] == Str(route.upstreamModel.value)
  {
    AuditedIsServedIff(snap, counters, Get(body, "model").s, Some(Kind.Chat));
  }

  // ---- The handler up to its await -------------------------------------------------

  datatype Admission =
    | Unauthorized
    | Refused(decision: Budget.Decision)
    | Failed(error: ProxyError)
    | Streaming(service: Service, body: Json)
    | Awaiting(service: Service, body: Json)

  /** The ledger steps one arriving request amounts to. */
  function ArrivalSteps(id: string, caller: Budget.Caller, route: Budget.Route, admission: Admission): seq<BudgetRuns.Step> {
    match admission
    case Unauthorized => [BudgetRuns.Refuse(id, caller, route)]
    case Refused(_) => [BudgetRuns.Arrive(id, caller, route, false)]
    case Failed(_) => [BudgetRuns.Arrive(id, caller, route, false), BudgetRuns.Fail(id)]
    case Streaming(_, _) => [BudgetRuns.Arrive(id, caller, route, true)]
    case Awaiting(_, _) => [BudgetRuns.Arrive(id, caller, route, false)]
  }

  method ChatCompletions(registry: Registry.Registry, ledger: Ledger.RequestLedger, id: string,
                         caller: Budget.Caller, authorized: bool, body: Json, now: int)
    returns (admission: Admission)
    requires registry.Valid() && body.Obj? && BudgetRuns.Fresh(ledger.WorldAt(now), id)
    modifies registry`rrCounters, ledger
    ensures var (route, counters) := Metadata(registry.Snap(), old(registry.rrCounters), body);
            var decision := Budget.Gate(ledger.config, old(ledger.audit), caller, route, now);
            var (prepared, counters') := Prepare(registry.Snap(), counters, body);
            && ledger.WorldAt(now) == BudgetRuns.Run(ledger.config, old(ledger.WorldAt(now)), ArrivalSteps(id, caller, route, admission))
            && (!authorized ==> admission == Unauthorized && registry.rrCounters == counters)
            && (authorized && !decision.Admitted? ==> admission == Refused(decision) && registry.rrCounters == counters)
            && (authorized && decision.Admitted? ==>
                  && registry.rrCounters == counters'
                  && match prepared
                     case Err(error) => admission == Failed(error)
                     case Ok((service, sent)) =>
                       admission == if Falsy(Get(body, "stream")) then Awaiting(service, sent) else Streaming(service, sent))
  {
    var route := RouteAuditMetadata(registry, body);
    if !authorized {
      ledger.Refuse(id, caller, route, now);
      OneStep(ledger.config, old(ledger.WorldAt(now)), ArrivalSteps(id, caller, route, Unauthorized));
      return Unauthorized;
    }
    var decision := ledger.EnforceRequestBudget(caller, route, now);
    if !decision.Admitted? {
      var refusal := ledger.Arrive(id, caller, route, false, now);
      OneStep(ledger.config, old(ledger.WorldAt(now)), ArrivalSteps(id, caller, route, Refused(decision)));
      return Refused(decision);
    }
    var prepared := PrepareChatUpstream(registry, body);
    admission := Launch(ledger, id, caller, route, prepared, !Falsy(Get(body, "stream")), now);
  }

  function AdmissionOf(prepared: Prepared, stream: bool): Admission {
    match prepared
    case Err(e) => Failed(e)
    case Ok((s, b)) => if stream then Streaming(s, b) else Awaiting(s, b)
  }

  /** After the gate: audit a failed preparation or a stream at once, or go to
      await the upstream reply. */
  method Launch(ledger: Ledger.RequestLedger, id: string, caller: Budget.Caller, route: Budget.Route,
                prepared: Prepared, stream: bool, now: int)
    returns (admission: Admission)
    requires BudgetRuns.Fresh(ledger.WorldAt(now), id)
    requires Budget.Gate(ledger.config, ledger.audit, caller, route, now) == Budget.Admitted
    modifies ledger
    ensures admission == AdmissionOf(prepared, stream)
    ensures ledger.WorldAt(now) == BudgetRuns.Run(ledger.config, old(ledger.WorldAt(now)), ArrivalSteps(id, caller, route, admission))
  {
    admission := AdmissionOf(prepared, stream);
    var admitted := ledger.Arrive(id, caller, route, admission.Streaming?, now);
    if admission.Failed? {
      ghost var between := ledger.WorldAt(now);
      ledger.Settle(id, None, now);
      TwoSteps(ledger.config, old(ledger.WorldAt(now)), between, ArrivalSteps(id, caller, route, admission));
    } else {
      OneStep(ledger.config, old(ledger.WorldAt(now)), ArrivalSteps(id, caller, route, admission));
    }
  }

  /** What Python takes for false. */
  lemma FalsyMeaning(j: Json)
    ensures Falsy(j) <==> j in {Null, Bool(false), Num(0.0), Str(""), Arr([]), Obj(map[])}
  {
  }

  /** How a request leaves the handler: it waits for its reply and nothing is
      recorded yet, or it is recorded, once and for good, as a success if it is a
      stream and else as a failure. */
  lemma ArrivalOutcome(config: Budget.Config, w: BudgetRuns.World, id: string, caller: Budget.Caller, route: Budget.Route,
                       admission: Admission)
    requires BudgetRuns.Sane(config, w) && BudgetRuns.Fresh(w, id)
    requires var decision := Budget.Gate(config, w.audit, caller, route, w.now);
             (admission.Refused? ==> !decision.Admitted?)
             && (admission.Failed? || admission.Streaming? || admission.Awaiting? ==> decision.Admitted?)
    ensures var after := BudgetRuns.Run(config, w, ArrivalSteps(id, caller, route, admission));
            if admission.Awaiting?
            then && after.audit == w.audit && after.flights.Keys == w.flights.Keys + {id}
                 && after.flights[id] == BudgetRuns.Flight(caller.key, route, w.now)
            else && after.flights == w.flights
                 && Recording.Recorded(w, after, id, caller.key, route, w.now, admission.Streaming?)
  {
    hide Budget.Gate, BudgetRuns.Sane;
    var steps := ArrivalSteps(id, caller, route, admission);
    if admission.Unauthorized? {
      OneStep(config, w, steps);
      Recording.RefusalIsRecorded(config, w, id, caller, route);
    } else {
      Recording.ArrivalIsRecorded(config, w, id, caller, route, admission.Streaming?);
      if admission.Failed? {
        var between := BudgetRuns.Apply(config, w, steps[0]);
        TwoSteps(config, w, between, steps);
        Recording.LandingIsRecorded(config, between, id, Pricing.NO_USAGE, false);
        assert between.flights - {id} == w.flights;
      } else {
        OneStep(config, w, steps);
      }
    }
  }

  lemma OneStep(config: Budget.Config, w: BudgetRuns.World, steps: seq<BudgetRuns.Step>)
    requires |steps| == 1
    ensures BudgetRuns.Run(config, w, steps) == BudgetRuns.Apply(config, w, steps[0])
  {
    assert steps[1..] == [];
  }

  lemma TwoSteps(config: Budget.Config, w: BudgetRuns.World, between: BudgetRuns.World, steps: seq<BudgetRuns.Step>)
    requires |steps| == 2 && between == BudgetRuns.Apply(config, w, steps[0])
    ensures BudgetRuns.Run(config, w, steps) == BudgetRuns.Apply(config, between, steps[1])
  {
    OneStep(config, between, steps[1..]);
  }
}
