/** A node keeping itself registered while requests and replies may be lost and
    the control plane may restart with an empty registry at any moment. */
module NodeSync {
  import opened Common
  import opened Json
  import opened Entities
  import opened Tables
  import Registry

  datatype Way = Arrives | RequestLost | ReplyLost

  /** What happens around one request: whether the registry is wiped before it,
      and whether the request, or the reply after it took effect, gets lost. */
  datatype Fate = Fate(wipedFirst: bool, way: Way)

  datatype Status = Accepted200 | NotFound404 | ServerError500 | NoReply

  /** The control plane restarts with an empty registry. */
  method Wipe(registry: Registry.Registry)
    requires registry.Valid()
    modifies registry`hosts, registry`services
    ensures registry.Valid() && registry.State() == EMPTY_TABLES
  {
    registry.hosts, registry.services := map[], map[];
  }

  class NodeClient {
    const enabled: bool
    const host: Host
    const services: seq<Service>      // sent when registering
    const enriched: seq<Service>      // sent with a heartbeat; empty without discovery
    var registered: bool

    constructor (enabled: bool, host: Host, services: seq<Service>, enriched: seq<Service>)
      ensures this.enabled == enabled && this.host == host && this.services == services && this.enriched == enriched
      ensures !registered
    {
      this.enabled, this.host, this.services, this.enriched := enabled, host, services, enriched;
      registered := false;
    }

    /** Neither list repeats an id or uses one that another host has. */
    ghost predicate Unrivalled(t: Tables)
    {
      Acceptable(t, host.hostId, services) && Acceptable(t, host.hostId, enriched)
    }

    method PostRegister(registry: Registry.Registry, fate: Fate) returns (status: Status)
      requires registry.Valid()
      modifies registry`hosts, registry`services
      ensures registry.Valid()
      ensures status == Accepted200 ==> Reports(registry.State(), services)
      ensures status != NotFound404 && (status == NoReply <==> !fate.way.Arrives?)
      ensures Unrivalled(old(registry.State())) ==>
                && Unrivalled(registry.State())
                && (fate.way.Arrives? ==> status == Accepted200)
                && (fate.way.ReplyLost? ==> host.hostId in registry.hosts)
    {
      if fate.wipedFirst {
        Wipe(registry);
      }
      if fate.way.RequestLost? {
        return NoReply;
      }
      ghost var before := registry.State();
      ReplacedIff(before, host.hostId, services);
      var reply := registry.RegisterHost(host, services);
      if reply == Done {
        OthersKeepTheirRows(before, services, registry.State());
        ReportIsHeld(before, services, registry.State());
      }
      return if fate.way.ReplyLost? then NoReply else if reply == Done then Accepted200 else ServerError500;
    }

    method PostHeartbeat(registry: Registry.Registry, fate: Fate) returns (status: Status)
      requires registry.Valid()
      modifies registry`hosts, registry`services
      ensures registry.Valid()
      ensures status == Accepted200 ==> host.hostId in registry.hosts && registry.hosts[host.hostId].statusState == "online"
      ensures status == Accepted200 && enriched != [] ==> Reports(registry.State(), enriched)
      ensures status == Accepted200 && enriched == [] && !fate.wipedFirst ==> registry.services == old(registry.services)
      ensures status == NoReply <==> !fate.way.Arrives?
      ensures !fate.wipedFirst && host.hostId in old(registry.hosts) ==>
                status != NotFound404 && host.hostId in registry.hosts
      ensures Unrivalled(old(registry.State())) ==> Unrivalled(registry.State()) && status != ServerError500
    {
      if fate.wipedFirst {
        Wipe(registry);
      }
      if fate.way.RequestLost? {
        return NoReply;
      }
      ghost var before := registry.State();
      ReplacedIff(before, host.hostId, enriched);
      var reply := registry.HeartbeatHost(host.hostId, "online", Obj(map[]), enriched);
      if reply == Done {
        OthersKeepTheirRows(before, enriched, registry.State());
        if enriched != [] {
          ReportIsHeld(before, enriched, registry.State());
        }
      }
      if fate.way.ReplyLost? {
        return NoReply;
      }
      return match reply
             case Done => Accepted200
             case UnknownHost => NotFound404
             case Clash => ServerError500;
    }

    /** The host's rows are exactly those reported. */
    ghost predicate Reports(t: Tables, rows: seq<Service>)
    {
      && host.hostId in t.hosts
      && (forall i | 0 <= i < |rows| ::
            rows[i].serviceId in t.services && t.services[rows[i].serviceId] == rows[i].(hostId := host.hostId))
      && forall id | id in t.services && t.services[id].hostId == host.hostId ::
           exists i | 0 <= i < |rows| :: rows[i].serviceId == id
    }

    lemma ReportIsHeld(before: Tables, rows: seq<Service>, after: Tables)
      requires Consistent(before) && host.hostId in after.hosts
      requires Replaced(before.services, host.hostId, rows) == Some(after.services)
      ensures Reports(after, rows)
    {
      ReplacedIff(before, host.hostId, rows);
      ReportKeys(host.hostId, rows);
      ReportRows(host.hostId, rows);
      forall id | id in after.services && after.services[id].hostId == host.hostId
        ensures exists i | 0 <= i < |rows| :: rows[i].serviceId == id
      {
        assert id in ReportOf(host.hostId, rows);
        assert id in Ids(rows);
      }
    }

    /** The other hosts have the rows they had, so nothing that was free is taken. */
    lemma OthersKeepTheirRows(before: Tables, rows: seq<Service>, after: Tables)
      requires Consistent(before)
      requires after.hosts.Keys == before.hosts.Keys + {host.hostId} && forall h | h in after.hosts :: after.hosts[h].hostId == h
      requires after.services == before.services
               || (Replaced(before.services, host.hostId, rows) == Some(after.services))
      ensures Unrivalled(before) ==> Unrivalled(after)
    {
      if after.services != before.services {
        ReplacedRows(before, host.hostId, rows, after.hosts);
      } else {
        forall g | g != host.hostId ensures OwnRows(after, g) == OwnRows(before, g) {}
      }
    }

    method RegisterOnce(registry: Registry.Registry, fate: Fate) returns (ok: bool)
      requires registry.Valid()
      modifies this, registry`hosts, registry`services
      ensures registry.Valid()
      ensures enabled && ok ==> registered && Reports(registry.State(), services)
      ensures !ok ==> registered == old(registered)
      ensures Unrivalled(old(registry.State())) ==>
                && Unrivalled(registry.State())
                && (ok || (enabled && !fate.way.Arrives?))
                && (enabled && fate.way.ReplyLost? ==> !ok && host.hostId in registry.hosts)
    {
      if !enabled {
        return true;
      }
      var status := PostRegister(registry, fate);
      if status != Accepted200 {
        return false;
      }
      registered := true;
      return true;
    }

    /** One heartbeat, with the fates of its up to four requests: register if
        not registered, heartbeat, and after a 404 register and heartbeat again.
        When it returns normally the host was in the registry at the last
        reply; and it does return normally, wipes before or during its first
        heartbeat included, unless a message is lost or the registry is wiped
        again while it recovers. */
    method HeartbeatOnce(registry: Registry.Registry, fates: (Fate, Fate, Fate, Fate)) returns (ok: bool)
      requires registry.Valid()
      modifies this, registry`hosts, registry`services
      ensures registry.Valid()
      ensures enabled && ok ==> registered && host.hostId in registry.hosts
      ensures enabled && ok && enriched != [] ==> Reports(registry.State(), enriched)
      ensures !enabled ==> registry.State() == old(registry.State()) && registered == old(registered)
      ensures Unrivalled(old(registry.State())) ==> Unrivalled(registry.State())
      ensures Unrivalled(old(registry.State()))
              && fates.0.way.Arrives? && fates.1.way.Arrives? && fates.2.way.Arrives? && fates.3 == Fate(false, Arrives)
              ==> ok
    {
      if !enabled {
        return true;
      }
      if !registered {
        var first := RegisterOnce(registry, fates.0);
        if !first {
          return false;
        }
      }
      var status := PostHeartbeat(registry, fates.1);
      if status == NotFound404 {
        registered := false;
        var again := RegisterOnce(registry, fates.2);
        if !again {
          return false;
        }
        status := PostHeartbeat(registry, fates.3);
      }
      return status == Accepted200;
    }
  }
}
