/** What resolving twice per request does to round robin in the long run: how
    often chat traffic reaches each service of a pool, by the pool's parity. */
module ChatTraffic {
  import opened Common
  import opened Json
  import opened Entities
  import opened Selection
  import opened Routing
  import opened Fairness
  import opened Tables
  import Ordering
  import Registry
  import Text

  // ---- Every second turn -----------------------------------------------------------

  /** How many of the turns c + 1, c + 3, ..., c + 2m - 1 (mod n) are t's. */
  function OddTurns(c: nat, n: nat, m: nat, t: nat): nat
    requires n > 0
  {
    if m == 0 then 0
    else OddTurns(c, n, m - 1, t) + if Slot(c + (2 * (m - 1) + 1), n) == t then 1 else 0
  }

  /** With an even pool of 2h every second turn walks one half of it, one by
      one; here c + 1 is 2e + p and the service in question has number 2u + q. */
  lemma {:induction false} EvenPoolTurns(c: nat, e: nat, p: nat, h: nat, m: nat, u: nat, q: nat)
    requires c + 1 == 2 * e + p && p < 2 && q < 2 && u < h
    ensures OddTurns(c, 2 * h, m, 2 * u + q) == if p == q then Turns(e, h, m, u) else 0
  {
    if m > 0 {
      EvenPoolTurns(c, e, p, h, m - 1, u, q);
      SlotOfDouble(e + (m - 1), p, h);
      assert c + (2 * (m - 1) + 1) == 2 * (e + (m - 1)) + p;
    }
  }

  /** The x with 2x = y modulo an odd n. */
  function Half(y: nat, n: nat): nat {
    if y % 2 == 0 then y / 2 else (y + n) / 2
  }

  lemma {:induction false} SlotOfTwice(x: nat, n: nat)
    requires n > 0
    ensures Slot(2 * x, n) == Slot(2 * Slot(x, n), n)
    decreases x
  {
    if x >= n {
      SlotOfTwice(x - n, n);
      assert Slot(2 * x, n) == Slot(2 * x - n, n) == Slot(2 * x - n - n, n);
    }
  }

  lemma DoublingIsOneToOne(s: nat, n: nat, t: nat)
    requires n % 2 == 1 && s < n && t < n
    ensures Half(t, n) < n
    ensures Slot(2 * s, n) == t <==> s == Half(t, n)
  {
    assert Slot(2 * s, n) == if 2 * s < n then 2 * s else 2 * s - n;
  }

  lemma SlotOfHalf(y: nat, j: nat, n: nat)
    requires n % 2 == 1
    ensures Slot(y + 2 * j, n) == Slot(2 * (Half(y, n) + j), n)
  {
    if y % 2 == 1 {
      assert 2 * (Half(y, n) + j) == y + 2 * j + n;
    }
  }

  /** With an odd pool every second turn walks all of it, in steps of two. */
  lemma {:induction false} OddPoolTurns(c: nat, n: nat, m: nat, t: nat)
    requires n % 2 == 1 && t < n
    ensures OddTurns(c, n, m, t) == Turns(Half(c + 1, n), n, m, Half(t, n))
  {
    if m > 0 {
      OddPoolTurns(c, n, m - 1, t);
      var x := Half(c + 1, n) + (m - 1);
      assert c + (2 * (m - 1) + 1) == c + 1 + 2 * (m - 1);
      SlotOfHalf(c + 1, m - 1, n);
      SlotOfTwice(x, n);
      DoublingIsOneToOne(Slot(x, n), n, t);
    }
  }

  // ---- Counting services -----------------------------------------------------------

  lemma OddPoolShare(c: nat, n: nat, m: nat, t: nat)
    requires n % 2 == 1 && t < n
    ensures FairShare(OddTurns(c, n, m, t), m, n)
  {
    OddPoolTurns(c, n, m, t);
    DoublingIsOneToOne(0, n, t);
    EveryCandidateGetsItsShare(Half(c + 1, n), n, m, Half(t, n));
  }

  lemma EvenPoolShare(c: nat, e: nat, p: nat, h: nat, m: nat, u: nat, q: nat)
    requires c + 1 == 2 * e + p && p < 2 && q < 2 && u < h
    ensures if p == q then FairShare(OddTurns(c, 2 * h, m, 2 * u + q), m, h) else OddTurns(c, 2 * h, m, 2 * u + q) == 0
  {
    EvenPoolTurns(c, e, p, h, m, u, q);
    EveryCandidateGetsItsShare(e, h, m, u);
  }

  lemma ShareOfTurns(c: nat, n: nat, m: nat, t: nat)
    requires n > 0 && t < n
    ensures n % 2 == 1 ==> FairShare(OddTurns(c, n, m, t), m, n)
    ensures n % 2 == 0 ==>
              if t % 2 == c % 2 then OddTurns(c, n, m, t) == 0 else FairShare(OddTurns(c, n, m, t), m, n / 2)
  {
    hide FairShare, OddTurns;
    if n % 2 == 1 {
      OddPoolShare(c, n, m, t);
    } else {
      EvenPoolShare(c, (c + 1) / 2, (c + 1) % 2, n / 2, m, t / 2, t % 2);
    }
  }

  lemma {:induction false} TimesAreOddTurns(running: seq<Service>, served: seq<Option<Service>>, c: nat, m: nat, t: nat)
    requires DistinctServices(running) && t < |running| && m <= |served|
    requires forall j | 0 <= j < |served| :: served[j] == Some(running[Slot(c + (2 * j + 1), |running|)])
    ensures Times(served[..m], running[t]) == OddTurns(c, |running|, m, t)
  {
    if m > 0 {
      TimesAreOddTurns(running, served, c, m - 1, t);
      assert served[..m][..m - 1] == served[..m - 1];
      SameSlot(running, Slot(c + (2 * (m - 1) + 1), |running|), t);
    }
  }

  /** Over any m chat requests in a row an odd pool serves each of its n services
      m/n times, rounded down or up.  An even pool serves every second service
      (m divided by n/2) times, rounded down or up, and the others never. */
  lemma ChatShares(snap: Snapshot, counters: Counters, id: string, kind: Option<Kind>, m: nat, t: nat)
    requires snap.strategy == RoundRobin && DistinctServices(snap.services)
    requires Pooled(snap, id, kind).Pool? && t < |Pooled(snap, id, kind).running|
    ensures var pool := Pooled(snap, id, kind);
            var n, c := |pool.running|, Counter(counters, pool.id);
            var times := Times(ServedByChat(snap, counters, id, kind, m), pool.running[t]);
            && (n % 2 == 1 ==> FairShare(times, m, n))
            && (n % 2 == 0 ==> if t % 2 == c % 2 then times == 0 else FairShare(times, m, n / 2))
  {
    var pool := Pooled(snap, id, kind);
    var n, c := |pool.running|, Counter(counters, pool.id);
    var served := ServedByChat(snap, counters, id, kind, m);
    PoolDistinct(snap, id, kind, {id});
    forall j | 0 <= j < m ensures served[j] == Some(pool.running[Slot(c + (2 * j + 1), n)]) {
      ChatServesAlternateTurns(snap, counters, id, kind, m, j);
    }
    TimesAreOddTurns(pool.running, served, c, m, t);
    assert served[..m] == served;
    ShareOfTurns(c, n, m, t);
  }

  // ---- Pools of every size occur -----------------------------------------------------

  function WorkerId(i: nat): (id: string)
    ensures |id| == i + 1 && id[0] == 'w'
  {
    if i == 0 then "w" else "w" + WorkerId(i - 1)
  }

  /** A healthy chat service that takes any work. */
  function Worker(i: nat): Service {
    Service(WorkerId(i), "host", Kind.Chat, "openai", "http://host", Runtime("", "", "", None, None), [],
            State("healthy", Available, true, true), Observed(None, None, None, None, None))
  }

  function Workers(n: nat): (services: seq<Service>)
    ensures |services| == n && forall i | 0 <= i < n :: services[i] == Worker(i)
  {
    seq(n, i requires 0 <= i < n => Worker(i))
  }

  const ANYONE := RoutingPolicy([], None, false, true, {}, {}, {}, {}, {}, {}, [], NoGuardrail)

  const BATCH := Role("batch", Kind.Chat, "text", Policy(map[], "", Prepend), ANYONE)

  const HOST := Host("host", false, None, None, {}, {}, "online", Obj(map[]))

  /** n equal workers of one host behind one role, taking turns. */
  function Fleet(n: nat): Snapshot {
    Snapshot(map["host" := HOST], Workers(n), map["batch" := BATCH], RoundRobin)
  }

  lemma FleetPool(n: nat)
    requires n > 0
    ensures Fleet(n).strategy == RoundRobin && DistinctServices(Fleet(n).services)
    ensures Pooled(Fleet(n), "batch", Some(Kind.Chat)) == Pool("batch", BATCH, Workers(n))
  {
    var snap := Fleet(n);
    FilterNone(snap.services, (s: Service) =>
      (Some(Kind.Chat).Some? ==> s.kind == Some(Kind.Chat).value) && AllowedForDirect(snap, s) && Named(s, "batch"));
    FilterAll(snap.services, (s: Service) => s.kind == Kind.Chat && AllowedForRole(snap, s, BATCH));
  }

  lemma {:induction false} WorkersInOrder(i: nat, j: nat)
    requires i < j
    ensures Text.Less(WorkerId(i), WorkerId(j))
  {
    if i > 0 {
      WorkersInOrder(i - 1, j - 1);
    }
  }

  lemma WorkersAreReport(n: nat)
    ensures Replaced(map[], "host", Workers(n)) == Some(ReportOf("host", Workers(n)))
    ensures forall s :: s in ReportOf("host", Workers(n)).Values <==> s in Workers(n)
  {
    var rows := Workers(n);
    var report := ReportOf("host", rows);
    InsertAllIff(map[], "host", rows);
    ReportKeys("host", rows);
    assert Without(map[], "host") == map[];
    assert map[] + report == report;
    ReportRows("host", rows);
    forall i | 0 <= i < n ensures rows[i].serviceId in report && report[rows[i].serviceId] == rows[i] && rows[i] in report.Values {
      assert rows[i].(hostId := "host") == rows[i];
    }
    forall s | s in report.Values ensures s in rows {
      var id :| id in report && report[id] == s;
      assert id in Ids(rows);
      var i :| 0 <= i < n && rows[i].serviceId == id;
      assert report[id] == rows[i];
    }
  }

  /** The fleet is what the registry holds once its host has registered. */
  lemma FleetIsRegistered(n: nat)
    ensures var t := After([Register(HOST, Workers(n))]);
            && Registry.KeyedById(t.services)
            && t.hosts == Fleet(n).hosts && Registry.ListedServices(t.services) == Fleet(n).services
  {
    var ops := [Register(HOST, Workers(n))];
    var t := After(ops);
    WorkersAreReport(n);
    assert ops[..|ops| - 1] == [] && ops[|ops| - 1] == ops[0];
    assert After([]) == EMPTY_TABLES;
    assert t == Step(EMPTY_TABLES, ops[0]).0;
    assert t.services == ReportOf("host", Workers(n));
    TablesRefineHistory(ops);
    Registry.ListedServicesFacts(t.services);
    forall i, j | 0 <= i < j < n ensures Ordering.KeyLess(Registry.RowKey(Worker(i)), Registry.RowKey(Worker(j))) {
      WorkersInOrder(i, j);
    }
    Ordering.SortedUnique(Registry.RowKey, Registry.ListedServices(t.services), Workers(n));
  }

  /** m chat requests to a new fleet of n workers. */
  function FleetTraffic(n: nat, m: nat): seq<Option<Service>> {
    ServedByChat(Fleet(n), map[], "batch", Some(Kind.Chat), m)
  }

  /** Fleets of every even size exist, and half of each idles: all m requests
      are shared among the workers with odd numbers (of two workers, one gets all). */
  lemma HalfOfAnEvenFleetIdles(h: nat, m: nat, i: nat)
    requires i < h
    ensures Times(FleetTraffic(2 * h, m), Worker(2 * i)) == 0
    ensures FairShare(Times(FleetTraffic(2 * h, m), Worker(2 * i + 1)), m, h)
  {
    hide Fleet, Pooled, ServedByChat, Times;
    FleetPool(2 * h);
    ChatShares(Fleet(2 * h), map[], "batch", Some(Kind.Chat), m, 2 * i);
    ChatShares(Fleet(2 * h), map[], "batch", Some(Kind.Chat), m, 2 * i + 1);
  }
}
