/** The registry object: its tables, its in-memory round-robin counters, and the
    methods that change and query them, each proved against the specification
    functions of Tables, Selection, Routing and Catalogue. */
module Registry {
  import opened Common
  import opened Json
  import opened Entities
  import opened Tables
  import opened Ordering
  import opened Selection
  import opened Routing
  import opened Catalogue

  function RowKey(s: Service): Key { Key(0.0, s.hostId, s.serviceId) }
  function RoleKey(r: Role): Key { Key(0.0, r.roleId, "") }
  function ItemKey(i: Item): Key { Key(0.0, i.0, "") }

  /** SELECT * FROM services ORDER BY host_id, service_id. */
  ghost function ListedServices(services: map<string, Service>): seq<Service>
    requires KeyedById(services)
  {
    Ordered(RowKey, services.Values)
  }

  ghost predicate KeyedById(services: map<string, Service>) {
    forall id | id in services :: services[id].serviceId == id
  }

  ghost predicate RolesKeyed(roles: map<string, Role>) {
    forall id | id in roles :: roles[id].roleId == id
  }

  lemma ListedServicesFacts(services: map<string, Service>)
    requires KeyedById(services)
    ensures DistinctKeys(RowKey, services.Values)
    ensures DistinctServices(ListedServices(services))
    ensures forall s :: s in ListedServices(services) <==> s in services.Values
  {
    var list := ListedServices(services);
    forall i, j | 0 <= i < j < |list| ensures list[i].serviceId != list[j].serviceId {
      assert list[i] in list && list[j] in list;
      KeyOrder(RowKey(list[i]), RowKey(list[j]));
    }
  }

  lemma ShrinksSince(snap: Snapshot, id: string, before: set<string>, now: set<string>)
    requires id in Universe(snap) && id !in now && before <= now
    ensures |Universe(snap) - (now + {id})| < |Universe(snap) - before|
  {
    Shrinks(snap, id, now, now + {id});
    SubsetSize(Universe(snap) - now, Universe(snap) - before);
  }

  /** The set of ids one search has looked at, shared by its recursive calls. */
  class Visited {
    var ids: set<string>

    constructor (first: string)
      ensures ids == {first}
    {
      ids := {first};
    }
  }

  class Registry {
    const strategy: Strategy
    var hosts: map<string, Host>
    var services: map<string, Service>
    var roles: map<string, Role>
    var rrCounters: map<string, nat>

    constructor (strategy: Strategy)
      ensures Valid() && State() == EMPTY_TABLES && roles == map[] && rrCounters == map[]
      ensures this.strategy == strategy
    {
      this.strategy := strategy;
      hosts, services, roles, rrCounters := map[], map[], map[], map[];
    }

    function State(): Tables
      reads this
    {
      Tables(hosts, services)
    }

    ghost predicate Valid()
      reads this
    {
      Consistent(State()) && RolesKeyed(roles)
    }

    ghost function Snap(): Snapshot
      reads this
      requires Valid()
    {
      Snapshot(hosts, ListedServices(services), roles, strategy)
    }

    // ---- Changing the tables ------------------------------------------------------

    /** Delete the host's rows and insert the new ones; stops at the first
        clash, leaving the undoing to the caller's transaction. */
    method ReplaceServices(hostId: string, rows: seq<Service>) returns (ok: bool)
      modifies this`services
      ensures match Replaced(old(services), hostId, rows)
              case Some(m) => ok && services == m
              case None => !ok && exists i ::
                0 <= i < |rows| && Replaced(old(services), hostId, rows[..i]) == Some(services) && rows[i].serviceId in services
    {
      services := map id | id in services && services[id].hostId != hostId :: services[id];
      for i := 0 to |rows|
        invariant Replaced(old(services), hostId, rows[..i]) == Some(services)
        invariant Replaced(old(services), hostId, rows) == InsertAll(services, hostId, rows[i..])
      {
        assert rows[i..][0] == rows[i] && rows[i..][1..] == rows[i + 1..] && rows[..i + 1] == rows[..i] + [rows[i]];
        InsertAllLast(Without(old(services), hostId), hostId, rows[..i], rows[i]);
        if rows[i].serviceId in services {
          return false;
        }
        services := services[rows[i].serviceId := rows[i].(hostId := hostId)];
      }
      return true;
    }

    method RegisterHost(host: Host, rows: seq<Service>) returns (reply: Reply)
      requires Valid()
      modifies this`hosts, this`services
      ensures Valid() && (State(), reply) == Step(old(State()), Operation.Register(host, rows))
    {
      StepConsistent(State(), Operation.Register(host, rows));
      var savedHosts, savedServices := hosts, services;
      var metrics := if host.hostId in hosts then hosts[host.hostId].metrics else Obj(map[]);
      hosts := hosts[host.hostId := host.(statusState := "online", metrics := metrics)];
      var ok := ReplaceServices(host.hostId, rows);
      if ok {
        return Done;
      }
      hosts, services := savedHosts, savedServices;
      return Clash;
    }

    method HeartbeatHost(hostId: string, statusState: string, metrics: Json, rows: seq<Service>) returns (reply: Reply)
      requires Valid()
      modifies this`hosts, this`services
      ensures Valid() && (State(), reply) == Step(old(State()), Operation.Heartbeat(hostId, statusState, metrics, rows))
    {
      StepConsistent(State(), Operation.Heartbeat(hostId, statusState, metrics, rows));
      if hostId !in hosts {
        return UnknownHost;
      }
      var savedHosts, savedServices := hosts, services;
      hosts := hosts[hostId := hosts[hostId].(statusState := statusState, metrics := metrics)];
      if rows != [] {
        var ok := ReplaceServices(hostId, rows);
        if !ok {
          hosts, services := savedHosts, savedServices;
          return Clash;
        }
      }
      return Done;
    }

    method RemoveExternalProviderHosts(keep: set<string>)
      requires Valid()
      modifies this`hosts, this`services
      ensures Valid() && State() == Step(old(State()), Operation.RemoveExternal(keep)).0
    {
      StepConsistent(State(), Operation.RemoveExternal(keep));
      var stale := set h | h in hosts && hosts[h].externalProvider && h !in keep;
      var pending := stale;
      while pending != {}
        invariant pending <= stale
        invariant hosts == old(hosts) - (stale - pending)
        invariant services == map id | id in old(services) && old(services)[id].hostId !in stale - pending :: old(services)[id]
        decreases pending
      {
        var hostId :| hostId in pending;
        pending := pending - {hostId};
        services := map id | id in services && services[id].hostId != hostId :: services[id];
        hosts := hosts - {hostId};
      }
      assert stale - {} == stale;
    }

    method UpdateServiceHealth(serviceId: string, health: string)
      requires Valid()
      modifies this`services
      ensures Valid() && State() == Step(old(State()), Operation.SetHealth(serviceId, health)).0
    {
      StepConsistent(State(), Operation.SetHealth(serviceId, health));
      if serviceId !in services {
        return;
      }
      var state := services[serviceId].state;
      services := services[serviceId := services[serviceId].(state := state.(health := health))];
    }

    method UpsertRoles(profiles: seq<Role>)
      requires Valid()
      modifies this`roles
      ensures Valid()
      ensures forall id :: id in roles <==> id in old(roles) || exists i | 0 <= i < |profiles| :: profiles[i].roleId == id
      ensures forall i | 0 <= i < |profiles| && (forall j | i < j < |profiles| :: profiles[j].roleId != profiles[i].roleId) ::
                roles[profiles[i].roleId] == profiles[i]
      ensures forall id | id in old(roles) && (forall i | 0 <= i < |profiles| :: profiles[i].roleId != id) ::
                roles[id] == old(roles)[id]
    {
      for n := 0 to |profiles|
        invariant RolesKeyed(roles)
        invariant forall id :: id in roles <==> id in old(roles) || exists i | 0 <= i < n :: profiles[i].roleId == id
        invariant forall i | 0 <= i < n && (forall j | i < j < n :: profiles[j].roleId != profiles[i].roleId) ::
                    roles[profiles[i].roleId] == profiles[i]
        invariant forall id | id in old(roles) && (forall i | 0 <= i < n :: profiles[i].roleId != id) ::
                    roles[id] == old(roles)[id]
      {
        roles := roles[profiles[n].roleId := profiles[n]];
      }
    }

    // ---- Queries --------------------------------------------------------------------

    method ListServices() returns (list: seq<Service>)
      requires Valid()
      ensures list == ListedServices(services)
    {
      ListedServicesFacts(services);
      list := Sort(RowKey, services.Values);
    }

    method ListRoles() returns (list: seq<Role>)
      requires Valid()
      ensures Sorted(RoleKey, list) && forall r :: r in list <==> r in roles.Values
    {
      assert DistinctKeys(RoleKey, roles.Values);
      list := Sort(RoleKey, roles.Values);
    }

    method TakeSnapshot() returns (snap: Snapshot)
      requires Valid()
      ensures snap == Snap() && DistinctServices(snap.services)
    {
      var list := ListServices();
      ListedServicesFacts(services);
      snap := Snapshot(hosts, list, roles, strategy);
    }

    method ScheduleRole(requested: string, candidates: seq<Service>, role: Role) returns (service: Service)
      requires candidates != []
      modifies this`rrCounters
      ensures (service, rrCounters) == Scheduled(strategy, old(rrCounters), requested, candidates, role)
    {
      match strategy {
        case RoundRobin =>
          var idx := (if requested in rrCounters then rrCounters[requested] else 0) % |candidates|;
          rrCounters := rrCounters[requested := idx + 1];
          service := candidates[idx];
        case LeastLoaded => service := Best(candidates, ByLoad());
        case Scored => service := Best(candidates, ByScore(role));
      }
    }

    method ResolveRoute(requested: string, kind: Option<Kind>, visited: Visited?) returns (resolution: Resolution)
      requires Valid()
      modifies this`rrCounters, visited
      ensures var out := Resolve(old(Snap()), old(rrCounters), requested, kind,
                                 if visited == null then {requested} else old(visited.ids));
              && resolution == out.resolution
              && rrCounters == out.counters
              && (visited != null ==> visited.ids == out.visited)
      decreases |Universe(Snap()) - (if visited == null then {requested} else visited.ids)|, |Fallbacks(Snap(), requested)| + 1
    {
      var snap := TakeSnapshot();
      var direct := DirectCandidates(snap, requested, kind);
      if direct != [] {
        return Direct(Best(direct, ByDirectScore()));
      }
      if requested !in roles {
        return Unknown;
      }
      var role := roles[requested];
      var candidates := Candidates(snap, role, RoleKind(role, kind));
      if candidates == [] {
        var seen := visited;
        if seen == null {
          seen := new Visited(requested);
        }
        resolution := SearchFallbacks(requested, role, seen);
      } else {
        NarrowedMeaning(candidates, role);
        var service := ScheduleRole(requested, Narrowed(candidates, role), role);
        resolution := ViaRole(role, Some(service), None);
      }
    }

    /** The loop over a role's fallbacks, marking ids in the shared set. */
    method SearchFallbacks(requested: string, role: Role, seen: Visited) returns (resolution: Resolution)
      requires Valid() && requested in roles && roles[requested] == role
      modifies this`rrCounters, seen
      ensures var found := Search(old(Snap()), old(rrCounters), role.routing.fallbackRoles, old(seen.ids));
              && resolution == (match found.hit
                                case Some((s, via)) => ViaRole(role, Some(s), Some(via))
                                case None => ViaRole(role, None, None))
              && rrCounters == found.counters
              && seen.ids == found.visited
      decreases |Universe(Snap()) - seen.ids|, |Fallbacks(Snap(), requested)|
    {
      ghost var snap := Snap();
      var fallbacks := role.routing.fallbackRoles;
      assert Known(snap, fallbacks);
      for i := 0 to |fallbacks|
        invariant Snap() == snap && seen.ids >= old(seen.ids)
        invariant Known(snap, fallbacks[i..])
        invariant Search(snap, old(rrCounters), fallbacks, old(seen.ids)) == Search(snap, rrCounters, fallbacks[i..], seen.ids)
      {
        var fallback := fallbacks[i];
        assert fallbacks[i..][0] == fallback && fallbacks[i..][1..] == fallbacks[i + 1..];
        if fallback !in seen.ids {
          ShrinksSince(snap, fallback, old(seen.ids), seen.ids);
          seen.ids := seen.ids + {fallback};
          var result := ResolveRoute(fallback, None, seen);
          if Served(result).Some? {
            return ViaRole(role, Served(result), Some(fallback));
          }
        }
      }
      return ViaRole(role, None, None);
    }

    method ListClientModels() returns (models: seq<Item>)
      requires Valid()
      modifies this`rrCounters
      ensures exists listed ::
        && Sorted(RoleKey, listed) && (forall r :: r in listed <==> r in old(roles).Values)
        && Sorted(ItemKey, models)
        && (forall item :: item in models <==> item in Deduped(Items(old(Snap()), listed)).Items)
        && rrCounters == CountersAfter(old(Snap()), old(rrCounters), listed)
    {
      var listed := ListRoles();
      var snap := TakeSnapshot();
      var serviceItems := CollectServices(snap);
      var roleItems := CollectRoles(snap, listed);
      var deduped := Dedupe(serviceItems + roleItems);
      models := Sort(ItemKey, deduped.Items);
    }

    method CollectServices(snap: Snapshot) returns (items: seq<Item>)
      ensures items == AllServiceItems(snap, snap.services)
    {
      items := [];
      for i := 0 to |snap.services|
        invariant items == AllServiceItems(snap, snap.services[..i])
      {
        assert snap.services[..i + 1][..i] == snap.services[..i];
        items := items + ServiceItems(snap, snap.services[i]);
      }
      assert snap.services[..|snap.services|] == snap.services;
    }

    method CollectRoles(snap: Snapshot, listed: seq<Role>) returns (items: seq<Item>)
      requires Valid() && snap == Snap()
      modifies this`rrCounters
      ensures items == RoleItems(snap, listed)
      ensures rrCounters == CountersAfter(snap, old(rrCounters), listed)
    {
      items := [];
      for i := 0 to |listed|
        invariant items == RoleItems(snap, listed[..i])
        invariant rrCounters == CountersAfter(snap, old(rrCounters), listed[..i])
      {
        var role := listed[i];
        assert listed[..i + 1][..i] == listed[..i];
        if Targets(snap, role) != [] {
          var resolved := ResolveRoute(role.roleId, Some(role.operation), null);
        }
        items := items + [RoleItem(snap, role)];
      }
      assert listed[..|listed|] == listed;
    }

    method Dedupe(items: seq<Item>) returns (deduped: map<string, Entry>)
      ensures deduped == Deduped(items)
    {
      deduped := map[];
      for i := 0 to |items|
        invariant deduped == Deduped(items[..i])
      {
        assert items[..i + 1][..i] == items[..i];
        deduped := deduped[items[i].0 := items[i].1];
      }
      assert items[..|items|] == items;
    }
  }
}
