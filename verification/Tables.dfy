/** The host and service tables: what registrations, heartbeats, provider
    removals and health probes do to them, and the per-host history they refine. */
module Tables {
  import opened Common
  import opened Json
  import opened Entities

  datatype Tables = Tables(hosts: map<string, Host>, services: map<string, Service>)

  const EMPTY_TABLES := Tables(map[], map[])

  /** A service list reported for one host; stored under that host's id. */
  datatype Operation =
    | Register(host: Host, services: seq<Service>)
    | Heartbeat(hostId: string, statusState: string, metrics: Json, services: seq<Service>)
    | RemoveExternal(keep: set<string>)
    | SetHealth(serviceId: string, health: string)

  datatype Reply = Done | UnknownHost | Clash

  // ---- The operations on the flat tables ------------------------------------

  function Without(services: map<string, Service>, hostId: string): map<string, Service> {
    map id | id in services && services[id].hostId != hostId :: services[id]
  }

  /** INSERT row by row; None is the primary-key clash that aborts the transaction. */
  function InsertAll(services: map<string, Service>, hostId: string, rows: seq<Service>): Option<map<string, Service>>
    decreases rows
  {
    if rows == [] then Some(services)
    else if rows[0].serviceId in services then None
    else InsertAll(services[rows[0].serviceId := rows[0].(hostId := hostId)], hostId, rows[1..])
  }

  function Replaced(services: map<string, Service>, hostId: string, rows: seq<Service>): Option<map<string, Service>> {
    InsertAll(Without(services, hostId), hostId, rows)
  }

  function Upserted(hosts: map<string, Host>, host: Host): Host {
    var metrics := if host.hostId in hosts then hosts[host.hostId].metrics else Obj(map[]);
    host.(statusState := "online", metrics := metrics)
  }

  function Stale(hosts: map<string, Host>, keep: set<string>): set<string> {
    set h | h in hosts && hosts[h].externalProvider && h !in keep
  }

  function Step(t: Tables, op: Operation): (Tables, Reply) {
    match op
    case Register(host, rows) =>
      (match Replaced(t.services, host.hostId, rows)
       case None => (t, Clash)
       case Some(services) => (Tables(t.hosts[host.hostId := Upserted(t.hosts, host)], services), Done))
    case Heartbeat(h, state, metrics, rows) =>
      if h !in t.hosts then (t, UnknownHost)
      else
        var hosts := t.hosts[h := t.hosts[h].(statusState := state, metrics := metrics)];
        if rows == [] then (Tables(hosts, t.services), Done)
        else
          (match Replaced(t.services, h, rows)
           case None => (t, Clash)
           case Some(services) => (Tables(hosts, services), Done))
    case RemoveExternal(keep) =>
      var stale := Stale(t.hosts, keep);
      (Tables(t.hosts - stale, map id | id in t.services && t.services[id].hostId !in stale :: t.services[id]), Done)
    case SetHealth(id, health) =>
      if id !in t.services then (t, Done)
      else (t.(services := t.services[id := t.services[id].(state := t.services[id].state.(health := health))]), Done)
  }

  // ---- What a list of rows stores ---------------------------------------------

  predicate DistinctIds(rows: seq<Service>) {
    forall i, j | 0 <= i < j < |rows| :: rows[i].serviceId != rows[j].serviceId
  }

  function Ids(rows: seq<Service>): set<string> {
    set i | 0 <= i < |rows| :: rows[i].serviceId
  }

  /** The rows of one host by service id. */
  type Report = map<string, Service>

  function ReportOf(hostId: string, rows: seq<Service>): Report
    decreases rows
  {
    if rows == [] then map[]
    else ReportOf(hostId, rows[1..])[rows[0].serviceId := rows[0].(hostId := hostId)]
  }

  lemma {:induction false} ReportKeys(hostId: string, rows: seq<Service>)
    ensures ReportOf(hostId, rows).Keys == Ids(rows)
    ensures forall id | id in ReportOf(hostId, rows) ::
              ReportOf(hostId, rows)[id].serviceId == id && ReportOf(hostId, rows)[id].hostId == hostId
  {
    if rows != [] {
      ReportKeys(hostId, rows[1..]);
      IdsStep(rows);
    }
  }

  /** A report holds each of its rows under its id. */
  lemma {:induction false} ReportRows(hostId: string, rows: seq<Service>)
    requires DistinctIds(rows)
    ensures forall i | 0 <= i < |rows| ::
              rows[i].serviceId in ReportOf(hostId, rows) && ReportOf(hostId, rows)[rows[i].serviceId] == rows[i].(hostId := hostId)
    decreases rows
  {
    if rows != [] {
      var rest := rows[1..];
      assert forall i, j | 0 <= i < j < |rest| :: rest[i].serviceId == rows[i + 1].serviceId && rest[j].serviceId == rows[j + 1].serviceId;
      ReportRows(hostId, rest);
      forall i | 1 <= i < |rows|
        ensures rows[i].serviceId in ReportOf(hostId, rows) && ReportOf(hostId, rows)[rows[i].serviceId] == rows[i].(hostId := hostId)
      {
        assert rest[i - 1] == rows[i] && rows[i].serviceId != rows[0].serviceId;
      }
    }
  }

  lemma IdsStep(rows: seq<Service>)
    requires rows != []
    ensures Ids(rows) == {rows[0].serviceId} + Ids(rows[1..])
  {
    forall id | id in Ids(rows) ensures id in {rows[0].serviceId} + Ids(rows[1..]) {
      var i :| 0 <= i < |rows| && rows[i].serviceId == id;
      if i > 0 { assert rows[1..][i - 1].serviceId == id; }
    }
    forall id | id in Ids(rows[1..]) ensures id in Ids(rows) {
      var i :| 0 <= i < |rows| - 1 && rows[1..][i].serviceId == id;
      assert rows[i + 1].serviceId == id;
    }
  }

  /** Rows go in one after the other: a longer batch is a shorter one and its last row. */
  lemma {:induction false} InsertAllLast(services: map<string, Service>, hostId: string, rows: seq<Service>, row: Service)
    ensures InsertAll(services, hostId, rows + [row]) ==
            match InsertAll(services, hostId, rows) {
              case None => None
              case Some(m) => if row.serviceId in m then None else Some(m[row.serviceId := row.(hostId := hostId)])
            }
    decreases rows
  {
    if rows == [] {
      assert [] + [row] == [row];
    } else {
      assert (rows + [row])[0] == rows[0] && (rows + [row])[1..] == rows[1..] + [row];
      if rows[0].serviceId !in services {
        InsertAllLast(services[rows[0].serviceId := rows[0].(hostId := hostId)], hostId, rows[1..], row);
      }
    }
  }

  /** Insertion succeeds exactly when the ids are distinct and new, and then
      adds exactly the reported rows. */
  lemma {:induction false} InsertAllIff(services: map<string, Service>, hostId: string, rows: seq<Service>)
    ensures InsertAll(services, hostId, rows).Some? <==> DistinctIds(rows) && Ids(rows) !! services.Keys
    ensures InsertAll(services, hostId, rows).Some? ==>
              InsertAll(services, hostId, rows).value == services + ReportOf(hostId, rows)
    decreases rows
  {
    if rows != [] {
      var first, rest := rows[0], rows[1..];
      var row := first.(hostId := hostId);
      IdsStep(rows);
      ReportKeys(hostId, rest);
      DistinctStep(rows);
      if first.serviceId !in services {
        InsertAllIff(services[first.serviceId := row], hostId, rest);
        if first.serviceId !in Ids(rest) {
          UnionStep(services, ReportOf(hostId, rest), first.serviceId, row);
        }
      }
    }
  }

  lemma UnionStep(services: map<string, Service>, report: Report, id: string, row: Service)
    requires id !in report
    ensures services[id := row] + report == services + report[id := row]
  {
  }

  lemma DistinctStep(rows: seq<Service>)
    requires rows != []
    ensures DistinctIds(rows) <==> rows[0].serviceId !in Ids(rows[1..]) && DistinctIds(rows[1..])
  {
    if rows[0].serviceId !in Ids(rows[1..]) && DistinctIds(rows[1..]) {
      forall i, j | 0 <= i < j < |rows| ensures rows[i].serviceId != rows[j].serviceId {
        assert rows[j] == rows[1..][j - 1];
        if i > 0 { assert rows[i] == rows[1..][i - 1]; }
      }
    }
    if DistinctIds(rows) {
      forall i, j | 0 <= i < j < |rows| - 1 ensures rows[1..][i].serviceId != rows[1..][j].serviceId {
        assert rows[i + 1] == rows[1..][i] && rows[j + 1] == rows[1..][j];
      }
    }
  }

  // ---- The table invariant ------------------------------------------------------

  /** Rows are keyed by their own id and belong to a host that is present. */
  ghost predicate Consistent(t: Tables) {
    && (forall h | h in t.hosts :: t.hosts[h].hostId == h)
    && forall id | id in t.services :: t.services[id].serviceId == id && t.services[id].hostId in t.hosts
  }

  ghost function OwnRows(t: Tables, hostId: string): Report {
    map id | id in t.services && t.services[id].hostId == hostId :: t.services[id]
  }

  /** A new report is refused exactly when its ids repeat or another host has one of them. */
  ghost predicate Acceptable(t: Tables, hostId: string, rows: seq<Service>) {
    DistinctIds(rows) && forall g | g in t.hosts && g != hostId :: Ids(rows) !! OwnRows(t, g).Keys
  }

  lemma ReplacedIff(t: Tables, hostId: string, rows: seq<Service>)
    requires Consistent(t)
    ensures Replaced(t.services, hostId, rows).Some? <==> Acceptable(t, hostId, rows)
    ensures Replaced(t.services, hostId, rows).Some? ==>
              Replaced(t.services, hostId, rows).value == Without(t.services, hostId) + ReportOf(hostId, rows)
  {
    var others := Without(t.services, hostId);
    InsertAllIff(others, hostId, rows);
    if Acceptable(t, hostId, rows) {
      forall id | id in others ensures id !in Ids(rows) {
        var g := t.services[id].hostId;
        assert id in OwnRows(t, g);
      }
    }
    if Ids(rows) !! others.Keys {
      forall g | g in t.hosts && g != hostId ensures Ids(rows) !! OwnRows(t, g).Keys {
        forall id | id in OwnRows(t, g) ensures id !in Ids(rows) {
          assert id in others;
        }
      }
    }
  }

  /** After an accepted report a host has exactly the reported rows, and every
      other host has exactly the rows it had. */
  lemma ReplacedRows(t: Tables, hostId: string, rows: seq<Service>, hosts: map<string, Host>)
    requires Consistent(t) && Replaced(t.services, hostId, rows).Some?
    requires hosts.Keys == t.hosts.Keys + {hostId} && forall h | h in hosts :: hosts[h].hostId == h
    ensures var t' := Tables(hosts, Replaced(t.services, hostId, rows).value);
            && Consistent(t')
            && OwnRows(t', hostId) == ReportOf(hostId, rows)
            && forall g | g != hostId :: OwnRows(t', g) == OwnRows(t, g)
  {
    var t' := Tables(hosts, Replaced(t.services, hostId, rows).value);
    ReplacedContents(t, hostId, rows);
    assert OwnRows(t', hostId) == ReportOf(hostId, rows);
    forall g | g != hostId ensures OwnRows(t', g) == OwnRows(t, g) {
      assert OwnRows(t', g).Keys == OwnRows(t, g).Keys;
    }
  }

  lemma ReplacedContents(t: Tables, hostId: string, rows: seq<Service>)
    requires Consistent(t) && Replaced(t.services, hostId, rows).Some?
    ensures var services := Replaced(t.services, hostId, rows).value;
            && (forall id | id in services :: services[id].serviceId == id)
            && (forall id :: id in services && services[id].hostId == hostId <==> id in ReportOf(hostId, rows))
            && (forall id | id in ReportOf(hostId, rows) :: services[id] == ReportOf(hostId, rows)[id])
            && (forall id :: id in services && services[id].hostId != hostId <==> id in t.services && t.services[id].hostId != hostId)
            && (forall id | id in services && services[id].hostId != hostId :: services[id] == t.services[id])
  {
    ReplacedIff(t, hostId, rows);
    ReportKeys(hostId, rows);
    InsertAllIff(Without(t.services, hostId), hostId, rows);
  }

  // ---- The history each host's state refines --------------------------------------

  function After(ops: seq<Operation>): Tables {
    if ops == [] then EMPTY_TABLES else Step(After(ops[..|ops| - 1]), ops[|ops| - 1]).0
  }

  /** A host as its own reports describe it. */
  datatype Presence = Presence(host: Host, report: Report)

  /** The rows are distinct and no other host currently reports one of their ids. */
  ghost predicate Accepted(ops: seq<Operation>, hostId: string, rows: seq<Service>)
    decreases |ops|, 1
  {
    DistinctIds(rows) &&
    forall g: string | g != hostId :: Reported(ops, g).Some? ==> Ids(rows) !! Reported(ops, g).value.report.Keys
  }

  /** What the history says about one host: its last accepted report since it
      was last removed, with the health probes that came after. */
  ghost function Reported(ops: seq<Operation>, h: string): Option<Presence>
    decreases |ops|, 0
  {
    if ops == [] then None
    else
      var before := ops[..|ops| - 1];
      var known := Reported(before, h);
      match ops[|ops| - 1]
      case Register(host, rows) =>
        if host.hostId == h && Accepted(before, h, rows) then
          var metrics := if known.Some? then known.value.host.metrics else Obj(map[]);
          Some(Presence(host.(statusState := "online", metrics := metrics), ReportOf(h, rows)))
        else known
      case Heartbeat(g, state, metrics, rows) =>
        if g == h && known.Some? && (rows == [] || Accepted(before, h, rows)) then
          Some(Presence(known.value.host.(statusState := state, metrics := metrics),
                        if rows == [] then known.value.report else ReportOf(h, rows)))
        else known
      case RemoveExternal(keep) =>
        if known.Some? && known.value.host.externalProvider && h !in keep then None else known
      case SetHealth(id, health) =>
        if known.Some? && id in known.value.report then
          var s := known.value.report[id];
          Some(known.value.(report := known.value.report[id := s.(state := s.state.(health := health))]))
        else known
  }

  ghost predicate Agrees(t: Tables, ops: seq<Operation>, h: string) {
    Reported(ops, h) == if h in t.hosts then Some(Presence(t.hosts[h], OwnRows(t, h))) else None
  }

  lemma AcceptedIffAcceptable(t: Tables, ops: seq<Operation>, hostId: string, rows: seq<Service>)
    requires forall h :: Agrees(t, ops, h)
    ensures Accepted(ops, hostId, rows) <==> Acceptable(t, hostId, rows)
  {
    if Accepted(ops, hostId, rows) {
      forall g | g in t.hosts && g != hostId ensures Ids(rows) !! OwnRows(t, g).Keys {
        assert Agrees(t, ops, g);
        assert Reported(ops, g).Some?;
      }
    }
    if Acceptable(t, hostId, rows) {
      forall g: string | g != hostId && Reported(ops, g).Some?
        ensures Ids(rows) !! Reported(ops, g).value.report.Keys
      {
        assert Agrees(t, ops, g);
      }
    }
  }

  lemma ReportAgrees(t: Tables, ops: seq<Operation>, op: Operation, h: string)
    requires op.Register? || op.Heartbeat?
    requires Consistent(t) && forall g :: Agrees(t, ops, g)
    ensures Agrees(Step(t, op).0, ops + [op], h)
  {
    var all, t' := ops + [op], Step(t, op).0;
    var hostId := if op.Register? then op.host.hostId else op.hostId;
    assert all[..|all| - 1] == ops;
    assert Agrees(t, ops, h);
    AcceptedIffAcceptable(t, ops, hostId, op.services);
    ReplacedIff(t, hostId, op.services);
    if Replaced(t.services, hostId, op.services).Some? && (op.Register? || (hostId in t.hosts && op.services != [])) {
      ReplacedRows(t, hostId, op.services, t'.hosts);
    } else {
      assert OwnRows(t', h) == OwnRows(t, h);
    }
  }

  lemma StepAgrees(t: Tables, ops: seq<Operation>, op: Operation, h: string)
    requires Consistent(t) && forall g :: Agrees(t, ops, g)
    ensures Agrees(Step(t, op).0, ops + [op], h)
  {
    var all, t' := ops + [op], Step(t, op).0;
    assert all[..|all| - 1] == ops;
    assert Agrees(t, ops, h);
    match op {
      case Register(_, _) => ReportAgrees(t, ops, op, h);
      case Heartbeat(_, _, _, _) => ReportAgrees(t, ops, op, h);
      case RemoveExternal(keep) =>
        if h !in Stale(t.hosts, keep) {
          assert OwnRows(t', h) == OwnRows(t, h);
        }
      case SetHealth(id, health) =>
        if id in t.services && t.services[id].hostId == h {
          var s := t.services[id];
          assert OwnRows(t', h) == OwnRows(t, h)[id := s.(state := s.state.(health := health))];
        } else {
          assert OwnRows(t', h) == OwnRows(t, h);
        }
    }
  }

  lemma StepConsistent(t: Tables, op: Operation)
    requires Consistent(t)
    ensures Consistent(Step(t, op).0)
  {
    match op {
      case Register(host, rows) =>
        if Replaced(t.services, host.hostId, rows).Some? {
          ReplacedRows(t, host.hostId, rows, t.hosts[host.hostId := Upserted(t.hosts, host)]);
        }
      case Heartbeat(g, state, metrics, rows) =>
        if g in t.hosts && rows != [] && Replaced(t.services, g, rows).Some? {
          ReplacedRows(t, g, rows, t.hosts[g := t.hosts[g].(statusState := state, metrics := metrics)]);
        }
      case RemoveExternal(_) =>
      case SetHealth(_, _) =>
    }
  }

  /** After any run the flat tables hold, for every host, exactly what that
      host's history says, and nothing else. */
  lemma {:induction false} TablesRefineHistory(ops: seq<Operation>)
    ensures Consistent(After(ops))
    ensures forall h :: Agrees(After(ops), ops, h)
  {
    if ops == [] {
      forall h ensures Agrees(After(ops), ops, h) {}
    } else {
      var before, last := ops[..|ops| - 1], ops[|ops| - 1];
      TablesRefineHistory(before);
      StepConsistent(After(before), last);
      assert ops == before + [last];
      forall h ensures Agrees(After(ops), ops, h) {
        StepAgrees(After(before), before, last, h);
      }
    }
  }

  /** A clash changes nothing at all, not even the host row or its status. */
  lemma ClashChangesNothing(t: Tables, op: Operation)
    requires Consistent(t)
    ensures Step(t, op).1 == Clash <==>
              (match op
               case Register(host, rows) => !Acceptable(t, host.hostId, rows)
               case Heartbeat(h, _, _, rows) => h in t.hosts && rows != [] && !Acceptable(t, h, rows)
               case _ => false)
    ensures Step(t, op).1 != Done ==> Step(t, op).0 == t
  {
    match op {
      case Register(host, rows) => ReplacedIff(t, host.hostId, rows);
      case Heartbeat(h, _, _, rows) => ReplacedIff(t, h, rows);
      case _ =>
    }
  }
}
