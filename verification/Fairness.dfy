/** Round-robin fairness: how often each candidate is chosen over a run of
    resolutions, and what resolving twice per request does to it. */
module Fairness {
  import opened Common
  import opened Entities
  import opened Selection
  import opened Routing

  // ---- Runs of resolutions ------------------------------------------------------

  /** The services given by k resolutions in a row of one id. */
  function Run(snap: Snapshot, counters: Counters, id: string, kind: Option<Kind>, k: nat): (r: (seq<Option<Service>>, Counters))
    ensures |r.0| == k
  {
    if k == 0 then ([], counters)
    else
      var (before, mid) := Run(snap, counters, id, kind, k - 1);
      var out := ResolveRoute(snap, mid, id, kind);
      (before + [Served(out.resolution)], out.counters)
  }

  function Counter(counters: Counters, key: string): nat {
    if key in counters then counters[key] else 0
  }

  /** The remainder of c by n, counted down. */
  function Slot(c: nat, n: nat): (slot: nat)
    requires n > 0
    ensures slot < n
  {
    if c < n then c else Slot(c - n, n)
  }

  lemma {:induction false} SlotIsRemainder(c: nat, n: nat)
    requires n > 0
    ensures Slot(c, n) == c % n
  {
    if c >= n {
      SlotIsRemainder(c - n, n);
      Remainder(c, (c - n) / n + 1, (c - n) % n, n);
    } else {
      Remainder(c, 0, c, n);
    }
  }

  lemma Remainder(a: nat, q: nat, r: nat, n: nat)
    requires n > 0 && r < n && a == q * n + r
    ensures a % n == r && a / n == q
  {
    var q', r' := a / n, a % n;
    assert a == q' * n + r' && 0 <= r' < n;
    if q' < q {
      Scale(q' + 1, q, n);
    } else if q < q' {
      Scale(q + 1, q', n);
    }
  }

  lemma Scale(a: nat, b: nat, n: nat)
    requires a <= b
    ensures a * n <= b * n
  {
  }

  lemma {:induction false} SlotAhead(c: nat, n: nat, w: nat)
    requires n > 0 && w < n
    ensures Slot(c + w, n) == if Slot(c, n) + w < n then Slot(c, n) + w else Slot(c, n) + w - n
    decreases c
  {
    if c >= n {
      SlotAhead(c - n, n, w);
    }
  }

  lemma {:induction false} NextTurn(c: nat, n: nat)
    requires n > 0
    ensures Slot(Slot(c, n) + 1, n) == Slot(c + 1, n)
    decreases c
  {
    if c >= n {
      NextTurn(c - n, n);
    }
  }

  /** The server a client's request for `id` ends at. */
  function Pooled(snap: Snapshot, id: string, kind: Option<Kind>): (server: Server)
    ensures server.Pool? ==> server.running != []
  {
    Locate(snap, id, kind, {id}).0
  }

  /** One round-robin resolution: the service whose turn it is, and the role's
      counter moved past it. */
  lemma OneTurn(snap: Snapshot, counters: Counters, id: string, kind: Option<Kind>)
    requires snap.strategy == RoundRobin && Pooled(snap, id, kind).Pool?
    ensures var pool, out := Pooled(snap, id, kind), ResolveRoute(snap, counters, id, kind);
            var n, c := |pool.running|, Counter(counters, pool.id);
            && Served(out.resolution) == Some(pool.running[Slot(c, n)])
            && out.counters == counters[pool.id := Slot(c, n) + 1]
  {
    ResolveIsLocateThenServe(snap, counters, id, kind, {id});
    SlotIsRemainder(Counter(counters, Pooled(snap, id, kind).id), |Pooled(snap, id, kind).running|);
  }

  /** The services whose turns are c, c + 1, ..., c + k - 1. */
  function Rotation(running: seq<Service>, c: nat, k: nat): (r: seq<Option<Service>>)
    requires running != []
    ensures |r| == k
  {
    if k == 0 then [] else Rotation(running, c, k - 1) + [Some(running[Slot(c + (k - 1), |running|)])]
  }

  lemma {:induction false} RotationAt(running: seq<Service>, c: nat, k: nat, i: nat)
    requires running != [] && i < k
    ensures Rotation(running, c, k)[i] == Some(running[Slot(c + i, |running|)])
  {
    if i < k - 1 {
      RotationAt(running, c, k - 1, i);
    }
  }

  /** k turns taken on one role's counter, without any search. */
  function Spin(running: seq<Service>, key: string, counters: Counters, k: nat): (seq<Option<Service>>, Counters)
    requires running != []
  {
    if k == 0 then ([], counters)
    else
      var (before, mid) := Spin(running, key, counters, k - 1);
      var turn := Slot(Counter(mid, key), |running|);
      (before + [Some(running[turn])], mid[key := turn + 1])
  }

  lemma {:induction false} RunIsSpin(snap: Snapshot, counters: Counters, id: string, kind: Option<Kind>, k: nat)
    requires snap.strategy == RoundRobin && Pooled(snap, id, kind).Pool?
    ensures var pool := Pooled(snap, id, kind);
            Run(snap, counters, id, kind, k) == Spin(pool.running, pool.id, counters, k)
  {
    if k > 0 {
      RunIsSpin(snap, counters, id, kind, k - 1);
      RunStep(snap, counters, id, kind, k);
    }
  }

  predicate OnlyMoved(before: Counters, after: Counters, key: string) {
    after - {key} == before - {key}
  }

  lemma {:induction false} SpinMoves(running: seq<Service>, key: string, counters: Counters, k: nat)
    requires running != []
    ensures var after := Spin(running, key, counters, k).1;
            && OnlyMoved(counters, after, key)
            && Slot(Counter(after, key), |running|) == Slot(Counter(counters, key) + k, |running|)
  {
    if k > 0 {
      SpinMoves(running, key, counters, k - 1);
      var mid := Spin(running, key, counters, k - 1).1;
      var turn := Slot(Counter(mid, key), |running|);
      MovedAgain(counters, mid, key, turn + 1);
      NextTurn(Counter(counters, key) + (k - 1), |running|);
    }
  }

  lemma {:induction false} SpinRotates(running: seq<Service>, key: string, counters: Counters, k: nat)
    requires running != []
    ensures Spin(running, key, counters, k).0 == Rotation(running, Counter(counters, key), k)
  {
    if k > 0 {
      SpinRotates(running, key, counters, k - 1);
      SpinMoves(running, key, counters, k - 1);
    }
  }

  lemma MovedAgain(before: Counters, middle: Counters, key: string, value: nat)
    requires OnlyMoved(before, middle, key)
    ensures OnlyMoved(before, middle[key := value], key)
    ensures Counter(middle[key := value], key) == value
  {
    assert middle[key := value] - {key} == middle - {key};
  }

  /** Round robin serves the pool's services in turn, from where the role's
      counter stands, and moves no other role's counter. */
  lemma TurnsGoRound(snap: Snapshot, counters: Counters, id: string, kind: Option<Kind>, k: nat)
    requires snap.strategy == RoundRobin && Pooled(snap, id, kind).Pool?
    ensures var pool := Pooled(snap, id, kind);
            var (served, after) := Run(snap, counters, id, kind, k);
            served == Rotation(pool.running, Counter(counters, pool.id), k) && OnlyMoved(counters, after, pool.id)
  {
    var pool := Pooled(snap, id, kind);
    RunIsSpin(snap, counters, id, kind, k);
    SpinRotates(pool.running, pool.id, counters, k);
    SpinMoves(pool.running, pool.id, counters, k);
  }

  lemma RunStep(snap: Snapshot, counters: Counters, id: string, kind: Option<Kind>, k: nat)
    requires snap.strategy == RoundRobin && Pooled(snap, id, kind).Pool? && k > 0
    ensures var pool, before := Pooled(snap, id, kind), Run(snap, counters, id, kind, k - 1);
            var turn := Slot(Counter(before.1, pool.id), |pool.running|);
            Run(snap, counters, id, kind, k) == (before.0 + [Some(pool.running[turn])], before.1[pool.id := turn + 1])
  {
    OneTurn(snap, Run(snap, counters, id, kind, k - 1).1, id, kind);
  }

  // ---- Counting turns -------------------------------------------------------------

  /** How many of the turns c, c+1, ..., c+k-1 (mod n) are j's. */
  function Turns(c: nat, n: nat, k: nat, j: nat): nat
    requires n > 0
  {
    if k == 0 then 0
    else Turns(c, n, k - 1, j) + if Slot(c + (k - 1), n) == j then 1 else 0
  }

  /** How many turns candidate j waits, starting at turn s. */
  function Wait(s: nat, n: nat, j: nat): nat
    requires s < n && j < n
  {
    if j >= s then j - s else j - s + n
  }

  /** k turns as full rounds and a rest, counted turn by turn. */
  function Laps(k: nat, n: nat): (lap: (nat, nat))
    requires n > 0
    ensures lap.1 < n
  {
    if k == 0 then (0, 0)
    else
      var (q, r) := Laps(k - 1, n);
      if r + 1 == n then (q + 1, 0) else (q, r + 1)
  }

  lemma {:induction false} LapsAreDivMod(k: nat, n: nat)
    requires n > 0
    ensures Laps(k, n) == (k / n, k % n)
  {
    LapsAddUp(k, n);
    Remainder(k, Laps(k, n).0, Laps(k, n).1, n);
  }

  lemma {:induction false} LapsAddUp(k: nat, n: nat)
    requires n > 0
    ensures k == Laps(k, n).0 * n + Laps(k, n).1
  {
    if k > 0 {
      LapsAddUp(k - 1, n);
    }
  }

  lemma {:induction false} SlotAfterLaps(c: nat, n: nat, k: nat)
    requires n > 0
    ensures Slot(c + k, n) == Slot(Slot(c, n) + Laps(k, n).1, n)
  {
    if k > 0 {
      SlotAfterLaps(c, n, k - 1);
      SlotAhead(c + (k - 1), n, if n == 1 then 0 else 1);
      SlotAhead(Slot(c, n) + Laps(k - 1, n).1, n, if n == 1 then 0 else 1);
      if n == 1 {
        assert Slot(c + k, 1) == 0;
      }
    } else {
      SlotAhead(Slot(c, n), n, 0);
    }
  }

  /** After q full rounds and r more turns, j has had q turns, and one more if
      its place lies in those r. */
  lemma {:induction false} TurnsByLaps(c: nat, n: nat, k: nat, j: nat)
    requires n > 0 && j < n
    ensures Turns(c, n, k, j) == Laps(k, n).0 + if Wait(Slot(c, n), n, j) < Laps(k, n).1 then 1 else 0
  {
    if k > 0 {
      TurnsByLaps(c, n, k - 1, j);
      SlotAfterLaps(c, n, k - 1);
      SlotAhead(Slot(c, n), n, Laps(k - 1, n).1);
    }
  }

  /** A fair share of m requests among n: m/n, rounded down or up. */
  predicate FairShare(times: nat, m: nat, n: nat)
    requires n > 0
  {
    times == m / n || (m % n != 0 && times == m / n + 1)
  }

  /** Over k consecutive resolutions each of the n candidates is chosen k/n
      times, rounded down or up. */
  lemma EveryCandidateGetsItsShare(c: nat, n: nat, k: nat, j: nat)
    requires n > 0 && j < n
    ensures FairShare(Turns(c, n, k, j), k, n)
  {
    TurnsByLaps(c, n, k, j);
    LapsAreDivMod(k, n);
  }

  /** How often a service appears among those served. */
  function Times(served: seq<Option<Service>>, s: Service): nat {
    if served == [] then 0
    else Times(served[..|served| - 1], s) + if served[|served| - 1] == Some(s) then 1 else 0
  }

  lemma {:induction false} TimesAreTurns(running: seq<Service>, c: nat, k: nat, j: nat)
    requires DistinctServices(running) && j < |running|
    ensures Times(Rotation(running, c, k), running[j]) == Turns(c, |running|, k, j)
  {
    if k > 0 {
      TimesAreTurns(running, c, k - 1, j);
      assert Rotation(running, c, k)[..k - 1] == Rotation(running, c, k - 1);
      SameSlot(running, Slot(c + (k - 1), |running|), j);
    }
  }

  lemma SameSlot(services: seq<Service>, i: nat, j: nat)
    requires DistinctServices(services) && i < |services| && j < |services|
    ensures services[i] == services[j] <==> i == j
  {
  }

  /** The fairness of the scheduler: over any k resolutions in a row of an id
      whose pool of n services stays the same, each service is chosen k/n times,
      rounded down or up. */
  lemma PoolIsServedFairly(snap: Snapshot, counters: Counters, id: string, kind: Option<Kind>, k: nat, j: nat)
    requires snap.strategy == RoundRobin && DistinctServices(snap.services)
    requires Pooled(snap, id, kind).Pool? && j < |Pooled(snap, id, kind).running|
    ensures var running := Pooled(snap, id, kind).running;
            FairShare(Times(Run(snap, counters, id, kind, k).0, running[j]), k, |running|)
  {
    var pool := Pooled(snap, id, kind);
    PoolDistinct(snap, id, kind, {id});
    TurnsGoRound(snap, counters, id, kind, k);
    FairRotation(pool.running, Counter(counters, pool.id), k, j);
  }

  lemma FairRotation(running: seq<Service>, c: nat, k: nat, j: nat)
    requires DistinctServices(running) && j < |running|
    ensures FairShare(Times(Rotation(running, c, k), running[j]), k, |running|)
  {
    TimesAreTurns(running, c, k, j);
    EveryCandidateGetsItsShare(c, |running|, k, j);
  }

  // ---- Two resolutions per request ---------------------------------------------------

  /** The chat handler resolves once for the audit row and once to serve. */
  function ChatResolutions(snap: Snapshot, counters: Counters, id: string, kind: Option<Kind>): (Option<Service>, Option<Service>) {
    var audit := ResolveRoute(snap, counters, id, kind);
    var serve := ResolveRoute(snap, audit.counters, id, kind);
    (Served(audit.resolution), Served(serve.resolution))
  }

  /** The audited service is the served one exactly when the strategy is not
      round robin, or there is no choice to make. */
  lemma AuditedIsServedIff(snap: Snapshot, counters: Counters, id: string, kind: Option<Kind>)
    requires DistinctServices(snap.services)
    ensures var server := Pooled(snap, id, kind);
            var (audited, served) := ChatResolutions(snap, counters, id, kind);
            audited == served <==> snap.strategy != RoundRobin || !server.Pool? || |server.running| == 1
  {
    var server := Pooled(snap, id, kind);
    var first := ResolveRoute(snap, counters, id, kind);
    if snap.strategy == RoundRobin && server.Pool? {
      var n, c := |server.running|, Counter(counters, server.id);
      OneTurn(snap, counters, id, kind);
      OneTurn(snap, first.counters, id, kind);
      PoolDistinct(snap, id, kind, {id});
      SlotAhead(Slot(c, n), n, if n == 1 then 0 else 1);
      SlotAhead(Slot(c, n), n, 0);
      SameSlot(server.running, Slot(c, n), Slot(Slot(c, n) + 1, n));
    } else {
      ResolveIsLocateThenServe(snap, counters, id, kind, {id});
      ResolveIsLocateThenServe(snap, first.counters, id, kind, {id});
    }
  }

  /** Of the resolutions of m chat requests, the j-th request serves the one
      numbered 2j + 1. */
  function ServedByChat(snap: Snapshot, counters: Counters, id: string, kind: Option<Kind>, m: nat): (r: seq<Option<Service>>)
    ensures |r| == m
  {
    var all := Run(snap, counters, id, kind, 2 * m).0;
    seq(m, j requires 0 <= j < m => all[2 * j + 1])
  }

  /** The j-th of m chat requests serves the pool's turn c + 2j + 1. */
  lemma ChatServesAlternateTurns(snap: Snapshot, counters: Counters, id: string, kind: Option<Kind>, m: nat, j: nat)
    requires snap.strategy == RoundRobin && Pooled(snap, id, kind).Pool? && j < m
    ensures var pool := Pooled(snap, id, kind);
            ServedByChat(snap, counters, id, kind, m)[j]
            == Some(pool.running[Slot(Counter(counters, pool.id) + (2 * j + 1), |pool.running|)])
  {
    var pool := Pooled(snap, id, kind);
    TurnsGoRound(snap, counters, id, kind, 2 * m);
    RotationAt(pool.running, Counter(counters, pool.id), 2 * m, 2 * j + 1);
  }

  /** Candidate t is served by one of n chat requests in a row: its turn is c + 2j + 1 for some j. */
  predicate Reached(c: nat, n: nat, t: nat)
    requires n > 0
  {
    exists j | 0 <= j < n :: Slot(c + (2 * j + 1), n) == t
  }

  lemma OddPoolReaches(c: nat, n: nat, t: nat)
    requires n > 0 && n % 2 == 1 && t < n
    ensures Reached(c, n, t)
  {
    var w := Wait(Slot(c + 1, n), n, t);
    SlotAhead(c + 1, n, w);
    if w % 2 == 0 {
      var j := w / 2;
      assert c + 1 + w == c + (2 * j + 1);
    } else {
      var j := (w + n) / 2;
      assert c + 1 + w + n == c + (2 * j + 1);
      assert Slot(c + 1 + w + n, n) == Slot(c + 1 + w, n);
    }
  }

  lemma {:induction false} SlotOfDouble(x: nat, p: nat, h: nat)
    requires h > 0 && p < 2
    ensures Slot(2 * x + p, 2 * h) == 2 * Slot(x, h) + p
    decreases x
  {
    if x >= h {
      SlotOfDouble(x - h, p, h);
      assert 2 * x + p - 2 * h == 2 * (x - h) + p;
    }
  }

  lemma SlotParity(c: nat, n: nat)
    requires n > 0 && n % 2 == 0
    ensures Slot(c, n) % 2 == c % 2
  {
    SlotOfDouble(c / 2, c % 2, n / 2);
  }

  /** n chat requests in a row cover all n candidates of a round-robin pool
      exactly when n is odd; with an even n every second one is never served. */
  lemma ChatCoversPoolIff(c: nat, n: nat)
    requires n > 0
    ensures (forall t: nat | t < n :: Reached(c, n, t)) <==> n % 2 == 1
    ensures n % 2 == 0 ==> forall t: nat | t < n && t % 2 == c % 2 :: !Reached(c, n, t)
  {
    if n % 2 == 1 {
      forall t: nat | t < n ensures Reached(c, n, t) {
        OddPoolReaches(c, n, t);
      }
    } else {
      forall j: nat ensures Slot(c + (2 * j + 1), n) % 2 != c % 2 {
        SlotParity(c + (2 * j + 1), n);
      }
      SlotParity(c, n);
      var missed := Slot(c, n);
      assert !Reached(c, n, missed);
    }
  }

  /** The same on the services themselves. */
  lemma ChatServesWholePoolIff(snap: Snapshot, counters: Counters, id: string, kind: Option<Kind>)
    requires snap.strategy == RoundRobin && DistinctServices(snap.services)
    requires Pooled(snap, id, kind).Pool?
    ensures var pool := Pooled(snap, id, kind);
            var n := |pool.running|;
            (forall t | 0 <= t < n :: Some(pool.running[t]) in ServedByChat(snap, counters, id, kind, n)) <==> n % 2 == 1
  {
    var pool := Pooled(snap, id, kind);
    var c, n := Counter(counters, pool.id), |pool.running|;
    var served := ServedByChat(snap, counters, id, kind, n);
    PoolDistinct(snap, id, kind, {id});
    forall j | 0 <= j < n ensures served[j] == Some(pool.running[Slot(c + (2 * j + 1), n)]) {
      ChatServesAlternateTurns(snap, counters, id, kind, n, j);
    }
    forall t: nat | t < n ensures Some(pool.running[t]) in served <==> Reached(c, n, t) {
      ServedIffReached(pool.running, served, c, t);
    }
    ChatCoversPoolIff(c, n);
  }

  lemma ServedIffReached(running: seq<Service>, served: seq<Option<Service>>, c: nat, t: nat)
    requires DistinctServices(running) && t < |running| == |served|
    requires forall j | 0 <= j < |served| :: served[j] == Some(running[Slot(c + (2 * j + 1), |running|)])
    ensures Some(running[t]) in served <==> Reached(c, |running|, t)
  {
    if Some(running[t]) in served {
      var j :| 0 <= j < |served| && served[j] == Some(running[t]);
      SameSlot(running, Slot(c + (2 * j + 1), |running|), t);
    }
    if Reached(c, |running|, t) {
      var j :| 0 <= j < |running| && Slot(c + (2 * j + 1), |running|) == t;
      assert served[j] == Some(running[t]);
    }
  }
}
