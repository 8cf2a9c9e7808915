/** The client-facing model list and its agreement with route resolution. */
module Catalogue {
  import opened Common
  import opened Entities
  import opened Selection
  import opened Routing

  datatype Entry =
    | ServiceEntry(service: Service)
    | AssetEntry(service: Service, assetId: string)
    | RoleEntry(role: Role, healthyTargets: nat, loadedTargets: nat)

  type Item = (string, Entry)

  // ---- What is listed, in the order it is collected -----------------------------

  function AssetItems(s: Service, assets: seq<Asset>): seq<Item> {
    if assets == [] then []
    else (if assets[0].assetId == "" then [] else [(assets[0].assetId, AssetEntry(s, assets[0].assetId))])
         + AssetItems(s, assets[1..])
  }

  function ServiceItems(snap: Snapshot, s: Service): seq<Item> {
    if AllowedForDirect(snap, s) then [(s.serviceId, ServiceEntry(s))] + AssetItems(s, s.assets) else []
  }

  function AllServiceItems(snap: Snapshot, services: seq<Service>): seq<Item> {
    if services == [] then []
    else AllServiceItems(snap, services[..|services| - 1]) + ServiceItems(snap, services[|services| - 1])
  }

  function Targets(snap: Snapshot, role: Role): seq<Service> {
    Candidates(snap, role, role.operation)
  }

  function RoleItem(snap: Snapshot, role: Role): Item {
    var targets := Targets(snap, role);
    (role.roleId, RoleEntry(role, |targets|, |Filter(targets, (s: Service) => s.AnyLoaded())|))
  }

  function RoleItems(snap: Snapshot, roles: seq<Role>): seq<Item> {
    seq(|roles|, i requires 0 <= i < |roles| => RoleItem(snap, roles[i]))
  }

  function Items(snap: Snapshot, roles: seq<Role>): seq<Item> {
    AllServiceItems(snap, snap.services) + RoleItems(snap, roles)
  }

  /** The last item with an id wins. */
  function Deduped(items: seq<Item>): map<string, Entry> {
    if items == [] then map[]
    else Deduped(items[..|items| - 1])[items[|items| - 1].0 := items[|items| - 1].1]
  }

  /** Listing a role with targets resolves it once, which moves its counter. */
  function CountersAfter(snap: Snapshot, counters: Counters, roles: seq<Role>): Counters {
    if roles == [] then counters
    else
      var before, role := CountersAfter(snap, counters, roles[..|roles| - 1]), roles[|roles| - 1];
      if Targets(snap, role) == [] then before
      else ResolveRoute(snap, before, role.roleId, Some(role.operation)).counters
  }

  // ---- Which ids are listed --------------------------------------------------------

  lemma {:induction false} DedupedKeys(items: seq<Item>)
    ensures forall x :: x in Deduped(items) <==> exists i | 0 <= i < |items| :: items[i].0 == x
  {
    if items != [] {
      var front, last := items[..|items| - 1], items[|items| - 1];
      DedupedKeys(front);
      forall x ensures x in Deduped(items) <==> exists i | 0 <= i < |items| :: items[i].0 == x {
        if i :| 0 <= i < |front| && front[i].0 == x {
          assert items[i].0 == x;
        }
        if i :| 0 <= i < |items| && items[i].0 == x {
          assert i < |front| ==> front[i].0 == x;
        }
        assert items[|items| - 1].0 == last.0;
      }
    }
  }

  predicate Listed(items: seq<Item>, x: string) {
    exists i | 0 <= i < |items| :: items[i].0 == x
  }

  lemma ListedConcat(a: seq<Item>, b: seq<Item>, x: string)
    ensures Listed(a + b, x) <==> Listed(a, x) || Listed(b, x)
  {
    if i :| 0 <= i < |a| && a[i].0 == x {
      assert (a + b)[i].0 == x;
    }
    if i :| 0 <= i < |b| && b[i].0 == x {
      assert (a + b)[|a| + i].0 == x;
    }
  }

  lemma {:induction false} AssetItemsListed(s: Service, assets: seq<Asset>, x: string)
    ensures Listed(AssetItems(s, assets), x) <==> x != "" && exists i | 0 <= i < |assets| :: assets[i].assetId == x
  {
    if assets != [] {
      var head := if assets[0].assetId == "" then [] else [(assets[0].assetId, AssetEntry(s, assets[0].assetId))];
      AssetItemsListed(s, assets[1..], x);
      ListedConcat(head, AssetItems(s, assets[1..]), x);
      assert Listed(head, x) <==> x != "" && assets[0].assetId == x by {
        if assets[0].assetId != "" { assert head[0].0 == assets[0].assetId; }
      }
      if i :| 0 <= i < |assets| && assets[i].assetId == x {
        if i > 0 { assert assets[1..][i - 1].assetId == x; }
      }
      if i :| 0 <= i < |assets| - 1 && assets[1..][i].assetId == x {
        assert assets[i + 1].assetId == x;
      }
    }
  }

  lemma ServiceItemsListed(snap: Snapshot, s: Service, x: string)
    ensures Listed(ServiceItems(snap, s), x)
            <==> AllowedForDirect(snap, s) && Named(s, x) && (x != "" || s.serviceId == "")
  {
    if AllowedForDirect(snap, s) {
      var own := [(s.serviceId, ServiceEntry(s))];
      AssetItemsListed(s, s.assets, x);
      ListedConcat(own, AssetItems(s, s.assets), x);
      assert Listed(own, x) <==> s.serviceId == x by {
        assert own[0].0 == s.serviceId;
      }
    }
  }

  lemma {:induction false} AllServiceItemsListed(snap: Snapshot, services: seq<Service>, x: string)
    ensures Listed(AllServiceItems(snap, services), x)
            <==> exists s | s in services :: AllowedForDirect(snap, s) && Named(s, x) && (x != "" || s.serviceId == "")
  {
    if services != [] {
      var front, last := services[..|services| - 1], services[|services| - 1];
      AllServiceItemsListed(snap, front, x);
      ServiceItemsListed(snap, last, x);
      ListedConcat(AllServiceItems(snap, front), ServiceItems(snap, last), x);
      assert forall s :: s in services <==> s in front || s == last by {
        assert services == front + [last];
      }
    }
  }

  lemma RoleItemsListed(snap: Snapshot, roles: seq<Role>, x: string)
    ensures Listed(RoleItems(snap, roles), x) <==> exists i | 0 <= i < |roles| :: roles[i].roleId == x
  {
    var items := RoleItems(snap, roles);
    if i :| 0 <= i < |roles| && roles[i].roleId == x {
      assert items[i].0 == x;
    }
    if i :| 0 <= i < |items| && items[i].0 == x {
      assert roles[i].roleId == x;
    }
  }

  /** `roles` lists every role of the snapshot, under its own id. */
  ghost predicate AllRoles(snap: Snapshot, roles: seq<Role>) {
    forall x :: x in snap.roles <==> exists i | 0 <= i < |roles| :: roles[i].roleId == x
  }

  predicate Resolves(snap: Snapshot, x: string) {
    DirectCandidates(snap, x, None) != [] || x in snap.roles
  }

  /** `Resolves` is what the resolver says, whatever the counters. */
  lemma ResolvesIsResolution(snap: Snapshot, counters: Counters, x: string)
    ensures ResolveRoute(snap, counters, x, None).resolution != Unknown <==> Resolves(snap, x)
  {
  }

  /** An id is listed exactly when it resolves, except that the empty id is
      listed only if a service or role bears it (an asset's empty id does not count). */
  lemma ListedIffResolves(snap: Snapshot, roles: seq<Role>, counters: Counters, x: string)
    requires AllRoles(snap, roles)
    ensures x in Deduped(Items(snap, roles))
            <==> ResolveRoute(snap, counters, x, None).resolution != Unknown
                 && (x != "" || "" in snap.roles || exists s | s in snap.services :: s.serviceId == "" && AllowedForDirect(snap, s))
  {
    ResolvesIsResolution(snap, counters, x);
    DedupedKeys(Items(snap, roles));
    assert x in Deduped(Items(snap, roles)) <==> Listed(Items(snap, roles), x);
    ListedConcat(AllServiceItems(snap, snap.services), RoleItems(snap, roles), x);
    AllServiceItemsListed(snap, snap.services, x);
    RoleItemsListed(snap, roles, x);
    DirectMembers(snap, x, None);
  }

  lemma DirectMembers(snap: Snapshot, x: string, kind: Option<Kind>)
    ensures forall s :: s in DirectCandidates(snap, x, kind) <==>
              s in snap.services && (kind.Some? ==> s.kind == kind.value) && AllowedForDirect(snap, s) && Named(s, x)
    ensures DirectCandidates(snap, x, kind) != [] <==>
              exists s | s in snap.services :: (kind.Some? ==> s.kind == kind.value) && AllowedForDirect(snap, s) && Named(s, x)
  {
    FilterMembers(snap.services, (s: Service) =>
      (kind.Some? ==> s.kind == kind.value) && AllowedForDirect(snap, s) && Named(s, x));
    assert DirectCandidates(snap, x, kind) != [] ==> DirectCandidates(snap, x, kind)[0] in DirectCandidates(snap, x, kind);
  }

  /** A role listed with healthy targets resolves to a service of its own operation. */
  lemma HealthyRoleResolves(snap: Snapshot, counters: Counters, role: Role)
    requires role.roleId in snap.roles && snap.roles[role.roleId] == role
    requires RoleItem(snap, role).1.healthyTargets > 0
    ensures var s := Served(ResolveRoute(snap, counters, role.roleId, Some(role.operation)).resolution);
            s.Some? && s.value in snap.services && s.value.kind == role.operation
  {
    var kind := Some(role.operation);
    assert HasLocal(snap, role.roleId, kind);
    SearchIsComplete(snap, counters, role.roleId, kind);
    ResolveSound(snap, counters, role.roleId, kind, {role.roleId});
    DirectMembers(snap, role.roleId, kind);
    FilterMembers(snap.services, (s: Service) => s.kind == role.operation && AllowedForRole(snap, s, role));
  }

  lemma {:induction false} LastItemWins(items: seq<Item>, i: nat)
    requires i < |items| && forall j | i < j < |items| :: items[j].0 != items[i].0
    ensures items[i].0 in Deduped(items) && Deduped(items)[items[i].0] == items[i].1
  {
    if i < |items| - 1 {
      LastItemWins(items[..|items| - 1], i);
    }
  }

  /** A role hides a service or asset of the same id. */
  lemma RoleEntryWins(snap: Snapshot, roles: seq<Role>, i: nat)
    requires i < |roles| && forall j | i < j < |roles| :: roles[j].roleId != roles[i].roleId
    ensures roles[i].roleId in Deduped(Items(snap, roles))
    ensures Deduped(Items(snap, roles))[roles[i].roleId] == RoleItem(snap, roles[i]).1
  {
    var items := Items(snap, roles);
    var at := |AllServiceItems(snap, snap.services)| + i;
    assert items[at] == RoleItem(snap, roles[i]);
    forall j | at < j < |items| ensures items[j].0 != items[at].0 {
      assert items[j] == RoleItem(snap, roles[j - |AllServiceItems(snap, snap.services)|]);
    }
    LastItemWins(items, at);
  }
}
