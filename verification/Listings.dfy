/** What the listings show: in which order, what stands under each id of the
    model list, and how many targets a role is said to have. */
module Listings {
  import opened Common
  import opened Entities
  import opened Selection
  import opened Routing
  import opened Ordering
  import opened Catalogue
  import Choice
  import Registry
  import Text

  // ---- Order ----------------------------------------------------------------------------

  /** Services are listed by host, then by id; roles and models by id. */
  lemma ServicesInOrder(services: map<string, Service>, i: nat, j: nat)
    requires Registry.KeyedById(services)
    requires i < j < |Registry.ListedServices(services)|
    ensures var a, b := Registry.ListedServices(services)[i], Registry.ListedServices(services)[j];
            Text.Less(a.hostId, b.hostId) || (a.hostId == b.hostId && Text.Less(a.serviceId, b.serviceId))
  {
    Registry.ListedServicesFacts(services);
    assert KeyLess(Registry.RowKey(Registry.ListedServices(services)[i]), Registry.RowKey(Registry.ListedServices(services)[j]));
  }

  lemma RolesInOrder(roles: seq<Role>, i: nat, j: nat)
    requires Sorted(Registry.RoleKey, roles) && i < j < |roles|
    ensures Text.Less(roles[i].roleId, roles[j].roleId)
  {
    assert KeyLess(Registry.RoleKey(roles[i]), Registry.RoleKey(roles[j]));
    Text.LessIrreflexive("");
  }

  lemma ModelsInOrder(models: seq<Item>, i: nat, j: nat)
    requires Sorted(Registry.ItemKey, models) && i < j < |models|
    ensures Text.Less(models[i].0, models[j].0) && models[i].0 != models[j].0
  {
    assert KeyLess(Registry.ItemKey(models[i]), Registry.ItemKey(models[j]));
    Text.LessIrreflexive("");
    Text.LessIrreflexive(models[i].0);
  }

  // ---- What stands under an id -------------------------------------------------------------

  /** The entry is true of its id: a service or an asset that may be used
      directly and bears the id, or a role of that id. */
  ghost predicate True(snap: Snapshot, roles: seq<Role>, id: string, entry: Entry) {
    match entry
    case ServiceEntry(s) => s in snap.services && AllowedForDirect(snap, s) && s.serviceId == id
    case AssetEntry(s, assetId) =>
      && s in snap.services && AllowedForDirect(snap, s) && assetId == id && id != ""
      && exists i | 0 <= i < |s.assets| :: s.assets[i].assetId == id
    case RoleEntry(role, healthy, loaded) => role in roles && role.roleId == id
  }

  ghost predicate AllTrue(snap: Snapshot, roles: seq<Role>, items: seq<Item>) {
    forall i | 0 <= i < |items| :: True(snap, roles, items[i].0, items[i].1)
  }

  lemma {:induction false} AssetsTrue(snap: Snapshot, roles: seq<Role>, s: Service, k: nat)
    requires s in snap.services && AllowedForDirect(snap, s) && k <= |s.assets|
    ensures AllTrue(snap, roles, AssetItems(s, s.assets[k..]))
    decreases |s.assets| - k
  {
    if k < |s.assets| {
      AssetsTrue(snap, roles, s, k + 1);
      assert s.assets[k..][0] == s.assets[k] && s.assets[k..][1..] == s.assets[k + 1..];
      var id := s.assets[k].assetId;
      assert id != "" ==> True(snap, roles, id, AssetEntry(s, id));
    }
  }

  lemma ServiceTrue(snap: Snapshot, roles: seq<Role>, s: Service)
    requires s in snap.services
    ensures AllTrue(snap, roles, ServiceItems(snap, s))
  {
    if AllowedForDirect(snap, s) {
      AssetsTrue(snap, roles, s, 0);
      assert s.assets[0..] == s.assets;
    }
  }

  lemma {:induction false} ServicesTrue(snap: Snapshot, roles: seq<Role>, services: seq<Service>)
    requires forall s | s in services :: s in snap.services
    ensures AllTrue(snap, roles, AllServiceItems(snap, services))
  {
    if services != [] {
      var front, last := services[..|services| - 1], services[|services| - 1];
      ServicesTrue(snap, roles, front);
      ServiceTrue(snap, roles, last);
      var a, b := AllServiceItems(snap, front), ServiceItems(snap, last);
      var all := AllServiceItems(snap, services);
      assert all == a + b;
      forall i | 0 <= i < |all| ensures True(snap, roles, all[i].0, all[i].1) {
        if i < |a| { assert all[i] == a[i]; } else { assert all[i] == b[i - |a|]; }
      }
    }
  }

  lemma {:induction false} DedupedFrom(items: seq<Item>, x: string)
    requires x in Deduped(items)
    ensures exists i :: 0 <= i < |items| && items[i] == (x, Deduped(items)[x])
  {
    var n := |items| - 1;
    if items[n].0 == x {
      assert items[n] == (x, Deduped(items)[x]);
    } else {
      DedupedFrom(items[..n], x);
      var i :| 0 <= i < n && items[..n][i] == (x, Deduped(items[..n])[x]);
      assert items[i] == items[..n][i];
    }
  }

  /** Whatever is listed under an id is true of it. */
  lemma EntriesAreTrue(snap: Snapshot, roles: seq<Role>, x: string)
    requires x in Deduped(Items(snap, roles))
    ensures True(snap, roles, x, Deduped(Items(snap, roles))[x])
  {
    var items := Items(snap, roles);
    var services := AllServiceItems(snap, snap.services);
    ServicesTrue(snap, roles, snap.services);
    DedupedFrom(items, x);
    var i :| 0 <= i < |items| && items[i] == (x, Deduped(items)[x]);
    if i < |services| {
      assert items[i] == services[i];
    } else {
      assert items[i] == RoleItem(snap, roles[i - |services|]);
    }
  }

  // ---- Targets --------------------------------------------------------------------------------

  lemma DistinctRest(services: seq<Service>)
    requires DistinctServices(services) && services != []
    ensures DistinctServices(services[1..]) && services[0] !in services[1..]
  {
    var rest := services[1..];
    forall i | 0 <= i < |rest| ensures rest[i].serviceId != services[0].serviceId {
      assert rest[i] == services[i + 1];
    }
  }

  lemma {:induction false} DistinctCount(services: seq<Service>)
    requires DistinctServices(services)
    ensures |set s | s in services| == |services|
  {
    if services != [] {
      hide DistinctServices;
      var rest := services[1..];
      DistinctRest(services);
      DistinctCount(rest);
      var later := set s | s in rest;
      assert services == [services[0]] + rest;
      assert (set s | s in services) == later + {services[0]};
    }
  }

  /** A role's entry counts the services fit for it, and how many of these are loaded. */
  lemma TargetsAreCounted(snap: Snapshot, role: Role)
    requires DistinctServices(snap.services)
    ensures RoleItem(snap, role).0 == role.roleId
    ensures RoleItem(snap, role).1 ==
            RoleEntry(role, |set s | s in snap.services && Choice.Fit(snap, role, role.operation, s)|,
                      |set s | s in snap.services && Choice.Fit(snap, role, role.operation, s) && s.AnyLoaded()|)
  {
    hide AllowedForRole;
    var targets := Targets(snap, role);
    var loaded := Filter(targets, (s: Service) => s.AnyLoaded());
    forall s ensures s in targets <==> Choice.Fit(snap, role, role.operation, s) {
      Choice.CandidateMeaning(snap, role, role.operation, s);
    }
    FilterDistinct(snap.services, (s: Service) => s.kind == role.operation && AllowedForRole(snap, s, role));
    FilterMembers(targets, (s: Service) => s.AnyLoaded());
    FilterDistinct(targets, (s: Service) => s.AnyLoaded());
    DistinctCount(targets);
    DistinctCount(loaded);
    assert (set s | s in targets) == set s | s in snap.services && Choice.Fit(snap, role, role.operation, s);
    assert (set s | s in loaded) == set s | s in snap.services && Choice.Fit(snap, role, role.operation, s) && s.AnyLoaded();
  }

  // ---- Listing takes turns ----------------------------------------------------------------------

  function CounterOf(counters: Counters, key: string): nat {
    if key in counters then counters[key] else 0
  }

  /** A role is given a turn if it has targets and services do not bear its name. */
  predicate TakesTurn(snap: Snapshot, role: Role) {
    Targets(snap, role) != [] && DirectCandidates(snap, role.roleId, Some(role.operation)) == []
  }

  lemma OneListing(snap: Snapshot, counters: Counters, role: Role)
    requires snap.strategy == RoundRobin && role.roleId in snap.roles && snap.roles[role.roleId] == role
    requires Targets(snap, role) != []
    ensures var running := Narrowed(Targets(snap, role), role);
            && running != []
            && ResolveRoute(snap, counters, role.roleId, Some(role.operation)).counters ==
               if TakesTurn(snap, role)
               then counters[role.roleId := CounterOf(counters, role.roleId) % |running| + 1]
               else counters
  {
    NarrowedMeaning(Targets(snap, role), role);
  }

  /** Listing the models under round robin uses up one turn of each role that has
      targets of its own, and of no other. */
  lemma {:induction false} ListingTakesTurns(snap: Snapshot, counters: Counters, roles: seq<Role>, key: string)
    requires snap.strategy == RoundRobin && Registry.RolesKeyed(snap.roles)
    requires forall r | r in roles :: r.roleId in snap.roles && snap.roles[r.roleId] == r
    requires forall i, j | 0 <= i < j < |roles| :: roles[i].roleId != roles[j].roleId
    ensures var c, after := CounterOf(counters, key), CounterOf(CountersAfter(snap, counters, roles), key);
            if key in snap.roles && snap.roles[key] in roles && TakesTurn(snap, snap.roles[key])
            then Narrowed(Targets(snap, snap.roles[key]), snap.roles[key]) != []
                 && after == c % |Narrowed(Targets(snap, snap.roles[key]), snap.roles[key])| + 1
            else after == c
    decreases |roles|
  {
    hide Narrowed, Targets, DirectCandidates, ResolveRoute;
    if roles != [] {
      var front, last := roles[..|roles| - 1], roles[|roles| - 1];
      assert roles == front + [last] && last in roles;
      assert last !in front by {
        forall i | 0 <= i < |front| ensures front[i] != last { assert roles[i] == front[i]; }
      }
      ListingTakesTurns(snap, counters, front, key);
      if Targets(snap, last) != [] {
        OneListing(snap, CountersAfter(snap, counters, front), last);
      }
    }
  }

  /** The other strategies keep no turns. */
  lemma {:induction false} ListingKeepsCounters(snap: Snapshot, counters: Counters, roles: seq<Role>)
    requires snap.strategy != RoundRobin
    ensures CountersAfter(snap, counters, roles) == counters
    decreases |roles|
  {
    if roles != [] {
      var before := CountersAfter(snap, counters, roles[..|roles| - 1]);
      var last := roles[|roles| - 1];
      ListingKeepsCounters(snap, counters, roles[..|roles| - 1]);
      ResolveIsLocateThenServe(snap, before, last.roleId, Some(last.operation), {last.roleId});
    }
  }
}
