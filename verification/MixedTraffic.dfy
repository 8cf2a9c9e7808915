/** Round robin under mixed traffic: requests for many ids, several of which may
    fall back to one role and share its counter. */
module MixedTraffic {
  import opened Common
  import opened Entities
  import opened Selection
  import opened Routing
  import opened Fairness
  import opened ChatTraffic

  datatype Request = Request(id: string, kind: Option<Kind>)

  /** The server a request ends at. */
  function ServerOf(snap: Snapshot, r: Request): Server {
    Pooled(snap, r.id, r.kind)
  }

  /** What each of the requests gets, one after the other. */
  function Traffic(snap: Snapshot, counters: Counters, requests: seq<Request>): (r: (seq<Option<Service>>, Counters))
    ensures |r.0| == |requests|
  {
    if requests == [] then ([], counters)
    else
      var last := requests[|requests| - 1];
      var (before, mid) := Traffic(snap, counters, requests[..|requests| - 1]);
      var out := ResolveRoute(snap, mid, last.id, last.kind);
      (before + [Served(out.resolution)], out.counters)
  }

  predicate EndsAt(snap: Snapshot, r: Request, role: string) {
    ServerOf(snap, r).Pool? && ServerOf(snap, r).id == role
  }

  /** What those requests get that end at one role's pool. */
  function ServedAt(snap: Snapshot, counters: Counters, requests: seq<Request>, role: string): seq<Option<Service>> {
    if requests == [] then []
    else
      var front, last := requests[..|requests| - 1], requests[|requests| - 1];
      ServedAt(snap, counters, front, role)
      + if EndsAt(snap, last, role)
        then [Traffic(snap, counters, requests).0[|front|]]
        else []
  }

  // ---- One pool per role ------------------------------------------------------------

  /** A role asked for by name is asked for its own operation, or for none in particular. */
  predicate Plain(snap: Snapshot, r: Request) {
    r.kind.Some? && r.id in snap.roles ==> snap.roles[r.id].operation == r.kind.value
  }

  /** The services that take turns for a role's own operation. */
  function PoolOf(snap: Snapshot, role: Role): seq<Service> {
    Narrowed(Candidates(snap, role, role.operation), role)
  }

  ghost predicate OwnPool(snap: Snapshot, server: Server) {
    server.Pool? ==>
      server.id in snap.roles && server.role == snap.roles[server.id] && server.running == PoolOf(snap, server.role)
  }

  lemma {:induction false} LocatedIsOwnPool(snap: Snapshot, id: string, kind: Option<Kind>, visited: set<string>)
    requires Plain(snap, Request(id, kind))
    ensures OwnPool(snap, Locate(snap, id, kind, visited).0)
    decreases |Universe(snap) - visited|, |Fallbacks(snap, id)| + 1
  {
    if DirectCandidates(snap, id, kind) == [] && id in snap.roles && RoleCandidates(snap, id, kind) == [] {
      LocatedInIsOwnPool(snap, Fallbacks(snap, id), visited);
    }
  }

  lemma {:induction false} LocatedInIsOwnPool(snap: Snapshot, ids: seq<string>, visited: set<string>)
    requires Known(snap, ids)
    ensures OwnPool(snap, LocateIn(snap, ids, visited).0)
    decreases |Universe(snap) - visited|, |ids|
  {
    if ids != [] {
      if ids[0] in visited {
        LocatedInIsOwnPool(snap, ids[1..], visited);
      } else {
        Shrinks(snap, ids[0], visited, visited + {ids[0]});
        LocatedIsOwnPool(snap, ids[0], None, visited + {ids[0]});
        var (server, after) := Locate(snap, ids[0], None, visited + {ids[0]});
        if server.Nobody? {
          Shrinks(snap, ids[0], visited, after);
          LocatedInIsOwnPool(snap, ids[1..], after);
        }
      }
    }
  }

  // ---- Turns ------------------------------------------------------------------------

  lemma TrafficAppend(snap: Snapshot, counters: Counters, front: seq<Request>, last: Request)
    ensures var (before, mid) := Traffic(snap, counters, front);
            var out := ResolveRoute(snap, mid, last.id, last.kind);
            Traffic(snap, counters, front + [last]) == (before + [Served(out.resolution)], out.counters)
  {
    assert (front + [last])[..|front|] == front;
  }

  lemma ServedAtAppend(snap: Snapshot, counters: Counters, front: seq<Request>, last: Request, role: string)
    ensures var got := Served(ResolveRoute(snap, Traffic(snap, counters, front).1, last.id, last.kind).resolution);
            ServedAt(snap, counters, front + [last], role)
            == ServedAt(snap, counters, front, role) + if EndsAt(snap, last, role) then [got] else []
  {
    hide ResolveRoute, Pooled;
    assert (front + [last])[..|front|] == front;
    TrafficAppend(snap, counters, front, last);
  }

  /** A request that ends at the role's pool takes one turn there, and any other
      request leaves that role's counter alone. */
  lemma PlainTurn(snap: Snapshot, counters: Counters, r: Request, role: string)
    requires snap.strategy == RoundRobin && role in snap.roles && PoolOf(snap, snap.roles[role]) != [] && Plain(snap, r)
    ensures var running, c := PoolOf(snap, snap.roles[role]), Counter(counters, role);
            var out := ResolveRoute(snap, counters, r.id, r.kind);
            if EndsAt(snap, r, role)
            then Served(out.resolution) == Some(running[Slot(c, |running|)]) && Counter(out.counters, role) == Slot(c, |running|) + 1
            else Counter(out.counters, role) == c
  {
    if EndsAt(snap, r, role) {
      LocatedIsOwnPool(snap, r.id, r.kind, {r.id});
      OneTurn(snap, counters, r.id, r.kind);
    } else {
      ResolveIsLocateThenServe(snap, counters, r.id, r.kind, {r.id});
    }
  }

  /** Under any mix of plain requests the services of a role's pool take turns,
      whichever ids lead there, from where the role's counter stands. */
  lemma {:induction false} MixedTurnsGoRound(snap: Snapshot, counters: Counters, requests: seq<Request>, role: string)
    requires snap.strategy == RoundRobin && role in snap.roles && PoolOf(snap, snap.roles[role]) != []
    requires forall r | r in requests :: Plain(snap, r)
    ensures var running, served := PoolOf(snap, snap.roles[role]), ServedAt(snap, counters, requests, role);
            var c, after := Counter(counters, role), Traffic(snap, counters, requests).1;
            && served == Rotation(running, c, |served|)
            && Slot(Counter(after, role), |running|) == Slot(c + |served|, |running|)
    decreases requests
  {
    hide ResolveRoute, EndsAt, PoolOf, Plain, Slot;
    if requests != [] {
      var front, last := requests[..|requests| - 1], requests[|requests| - 1];
      assert requests == front + [last];
      MixedTurnsGoRound(snap, counters, front, role);
      TrafficAppend(snap, counters, front, last);
      ServedAtAppend(snap, counters, front, last, role);
      PlainTurn(snap, Traffic(snap, counters, front).1, last, role);
      TurnsExtend(PoolOf(snap, snap.roles[role]), Counter(counters, role), ServedAt(snap, counters, front, role),
                  Counter(Traffic(snap, counters, front).1, role));
    }
  }

  /** One turn more, by a counter that stands where the turns so far have left it. */
  lemma TurnsExtend(running: seq<Service>, c: nat, served: seq<Option<Service>>, now: nat)
    requires running != [] && served == Rotation(running, c, |served|)
    requires Slot(now, |running|) == Slot(c + |served|, |running|)
    ensures served + [Some(running[Slot(now, |running|)])] == Rotation(running, c, |served| + 1)
    ensures Slot(Slot(now, |running|) + 1, |running|) == Slot(c + (|served| + 1), |running|)
  {
    NextTurn(c + |served|, |running|);
  }

  /** Hence each of its n services gets a fair share of the k requests that end
      at the pool, however they are mixed with others. */
  lemma MixedTrafficIsServedFairly(snap: Snapshot, counters: Counters, requests: seq<Request>, role: string, j: nat)
    requires snap.strategy == RoundRobin && DistinctServices(snap.services)
    requires role in snap.roles && j < |PoolOf(snap, snap.roles[role])|
    requires forall r | r in requests :: Plain(snap, r)
    ensures var running, served := PoolOf(snap, snap.roles[role]), ServedAt(snap, counters, requests, role);
            FairShare(Times(served, running[j]), |served|, |running|)
  {
    var own := snap.roles[role];
    FilterDistinct(snap.services, (s: Service) => s.kind == own.operation && AllowedForRole(snap, s, own));
    NarrowedDistinct(Candidates(snap, own, own.operation), own);
    MixedTurnsGoRound(snap, counters, requests, role);
    FairRotation(PoolOf(snap, own), Counter(counters, role), |ServedAt(snap, counters, requests, role)|, j);
  }

  // ---- Without it -------------------------------------------------------------------

  /** Requests of two kinds for one role have different pools but one counter:
      with two services each, the same one serves again. */
  lemma SharedCounterSkips(snap: Snapshot, counters: Counters, a: Request, b: Request)
    requires snap.strategy == RoundRobin && ServerOf(snap, a).Pool? && EndsAt(snap, b, ServerOf(snap, a).id)
    requires |ServerOf(snap, a).running| == |ServerOf(snap, b).running| == 2
    ensures var served := Traffic(snap, counters, [a, b, a]).0;
            served[0] == served[2]
  {
    hide ResolveRoute, Pooled, Slot;
    TwoTurns(Counter(counters, ServerOf(snap, a).id));
    var first := ResolveRoute(snap, counters, a.id, a.kind);
    var second := ResolveRoute(snap, first.counters, b.id, b.kind);
    OneTurn(snap, counters, a.id, a.kind);
    OneTurn(snap, first.counters, b.id, b.kind);
    OneTurn(snap, second.counters, a.id, a.kind);
    assert [] + [a] == [a] && [a] + [b] == [a, b] && [a, b] + [a] == [a, b, a];
    TrafficAppend(snap, counters, [], a);
    TrafficAppend(snap, counters, [a], b);
    TrafficAppend(snap, counters, [a, b], a);
  }

  lemma {:induction false} TwoTurns(c: nat)
    ensures Slot(Slot(Slot(c, 2) + 1, 2) + 1, 2) == Slot(c, 2)
  {
    NextTurn(c, 2);
    NextTurn(c + 1, 2);
    assert Slot(c + 2, 2) == Slot(c, 2);
  }

  /** Two chat workers and two embedding workers, taking turns for one chat role. */
  function TwoKinds(): Snapshot {
    Fleet(2).(services := Workers(2) + [Worker(2).(kind := Kind.Embeddings), Worker(3).(kind := Kind.Embeddings)])
  }

  lemma AllAllowed()
    ensures forall s | s in TwoKinds().services :: AllowedForRole(TwoKinds(), s, BATCH) && !Named(s, "batch")
  {
  }

  lemma CandidatesOfKind(kind: Kind)
    requires kind == Kind.Chat || kind == Kind.Embeddings
    ensures |Candidates(TwoKinds(), BATCH, kind)| == 2
    ensures DirectCandidates(TwoKinds(), "batch", Some(kind)) == []
  {
    hide AllowedForRole, AllowedForDirect, Named;
    var snap := TwoKinds();
    var keep := (s: Service) => s.kind == kind && AllowedForRole(snap, s, BATCH);
    var chat, embeddings := Workers(2), [Worker(2).(kind := Kind.Embeddings), Worker(3).(kind := Kind.Embeddings)];
    assert chat[0].kind == chat[1].kind == Kind.Chat;
    AllAllowed();
    FilterKeepsOrder(chat, embeddings, keep);
    FilterAll(if kind == Kind.Chat then chat else embeddings, keep);
    FilterNone(if kind == Kind.Chat then embeddings else chat, keep);
    FilterNone(snap.services, (s: Service) =>
      (Some(kind).Some? ==> s.kind == Some(kind).value) && AllowedForDirect(snap, s) && Named(s, "batch"));
  }

  lemma PoolOfKind(kind: Kind)
    requires kind == Kind.Chat || kind == Kind.Embeddings
    ensures EndsAt(TwoKinds(), Request("batch", Some(kind)), "batch")
    ensures |ServerOf(TwoKinds(), Request("batch", Some(kind))).running| == 2
  {
    hide Candidates, DirectCandidates;
    CandidatesOfKind(kind);
  }

  /** Requests that are not plain can spoil the turns: an embeddings request for
      the role between two chat requests sends both of these to the same worker. */
  lemma TurnsNeedPlainRequests(counters: Counters)
    ensures var served := Traffic(TwoKinds(), counters,
                                  [Request("batch", Some(Kind.Chat)), Request("batch", Some(Kind.Embeddings)),
                                   Request("batch", Some(Kind.Chat))]).0;
            served[0] == served[2]
  {
    hide TwoKinds;
    assert TwoKinds().strategy == RoundRobin by { TwoKindsTakeTurns(); }
    PoolOfKind(Kind.Chat);
    PoolOfKind(Kind.Embeddings);
    SharedCounterSkips(TwoKinds(), counters, Request("batch", Some(Kind.Chat)), Request("batch", Some(Kind.Embeddings)));
  }

  lemma TwoKindsTakeTurns()
    ensures TwoKinds().strategy == RoundRobin
  {
  }
}
