/** Resolving a requested model or role to a service: direct matches, the role's
    own candidates, and a depth-first search over the fallback graph that shares
    one visited set among all its branches. */
module Routing {
  import opened Common
  import opened Entities
  import opened Selection

  datatype Resolution =
    | Unknown
    | Direct(service: Service)
    | ViaRole(role: Role, served: Option<Service>, fallbackVia: Option<string>)

  function Served(r: Resolution): Option<Service> {
    match r
    case Unknown => None
    case Direct(s) => Some(s)
    case ViaRole(_, s, _) => s
  }

  // ---- One id on its own ---------------------------------------------------------

  predicate Named(s: Service, requested: string) {
    s.serviceId == requested || exists i | 0 <= i < |s.assets| :: s.assets[i].assetId == requested
  }

  function DirectCandidates(snap: Snapshot, requested: string, kind: Option<Kind>): seq<Service> {
    Filter(snap.services, (s: Service) =>
      (kind.Some? ==> s.kind == kind.value) && AllowedForDirect(snap, s) && Named(s, requested))
  }

  /** Loaded first, then faster, then the later id. */
  function DirectScore(s: Service): Score {
    Score(0, 0, if s.AnyLoaded() then 1 else 0, s.observed.p50LatencyMs, s.serviceId)
  }

  function ByDirectScore(): Better {
    (a: Service, b: Service) => Outscores(DirectScore(a), DirectScore(b))
  }

  function RoleKind(role: Role, kind: Option<Kind>): Kind {
    if kind.Some? then kind.value else role.operation
  }

  function RoleCandidates(snap: Snapshot, id: string, kind: Option<Kind>): seq<Service> {
    if id in snap.roles then Candidates(snap, snap.roles[id], RoleKind(snap.roles[id], kind)) else []
  }

  /** The id finds a service without any fallback. */
  predicate HasLocal(snap: Snapshot, id: string, kind: Option<Kind>) {
    DirectCandidates(snap, id, kind) != [] || RoleCandidates(snap, id, kind) != []
  }

  /** `s` is one of the services the id finds without any fallback. */
  predicate LocalService(snap: Snapshot, id: string, kind: Option<Kind>, s: Service) {
    if DirectCandidates(snap, id, kind) != [] then s in DirectCandidates(snap, id, kind)
    else s in RoleCandidates(snap, id, kind)
  }

  // ---- The search ----------------------------------------------------------------

  function Fallbacks(snap: Snapshot, id: string): seq<string> {
    if id in snap.roles then snap.roles[id].routing.fallbackRoles else []
  }

  function Universe(snap: Snapshot): set<string> {
    set r, i | r in snap.roles && 0 <= i < |snap.roles[r].routing.fallbackRoles| :: snap.roles[r].routing.fallbackRoles[i]
  }

  predicate Known(snap: Snapshot, ids: seq<string>) {
    forall i | 0 <= i < |ids| :: ids[i] in Universe(snap)
  }

  datatype Outcome = Outcome(resolution: Resolution, visited: set<string>, counters: Counters)

  datatype Found = Found(hit: Option<(Service, string)>, visited: set<string>, counters: Counters)

  function Resolve(snap: Snapshot, counters: Counters, id: string, kind: Option<Kind>, visited: set<string>): (out: Outcome)
    ensures visited <= out.visited
    decreases |Universe(snap) - visited|, |Fallbacks(snap, id)| + 1
  {
    var direct := DirectCandidates(snap, id, kind);
    if direct != [] then Outcome(Direct(Best(direct, ByDirectScore())), visited, counters)
    else if id !in snap.roles then Outcome(Unknown, visited, counters)
    else
      var role := snap.roles[id];
      var candidates := Candidates(snap, role, RoleKind(role, kind));
      if candidates == [] then
        var found := Search(snap, counters, role.routing.fallbackRoles, visited);
        (match found.hit
         case Some((s, via)) => Outcome(ViaRole(role, Some(s), Some(via)), found.visited, found.counters)
         case None => Outcome(ViaRole(role, None, None), found.visited, found.counters))
      else
        NarrowedMeaning(candidates, role);
        var (s, counters') := Scheduled(snap.strategy, counters, id, Narrowed(candidates, role), role);
        Outcome(ViaRole(role, Some(s), None), visited, counters')
  }

  /** Try the fallbacks in order, skipping and marking the ids seen anywhere in the search. */
  function Search(snap: Snapshot, counters: Counters, ids: seq<string>, visited: set<string>): (out: Found)
    requires Known(snap, ids)
    ensures visited <= out.visited
    decreases |Universe(snap) - visited|, |ids|
  {
    if ids == [] then Found(None, visited, counters)
    else if ids[0] in visited then Search(snap, counters, ids[1..], visited)
    else
      Shrinks(snap, ids[0], visited, visited + {ids[0]});
      var out := Resolve(snap, counters, ids[0], None, visited + {ids[0]});
      if Served(out.resolution).Some? then Found(Some((Served(out.resolution).value, ids[0])), out.visited, out.counters)
      else
        Shrinks(snap, ids[0], visited, out.visited);
        Search(snap, out.counters, ids[1..], out.visited)
  }

  lemma Shrinks(snap: Snapshot, id: string, visited: set<string>, more: set<string>)
    requires id in Universe(snap) && id !in visited && visited + {id} <= more
    ensures |Universe(snap) - more| < |Universe(snap) - visited|
  {
    var left, rest := Universe(snap) - visited, Universe(snap) - more;
    assert rest <= left - {id};
    SubsetSize(rest, left - {id});
  }

  /** As a client asks: the search starts with only the requested id visited. */
  function ResolveRoute(snap: Snapshot, counters: Counters, requested: string, kind: Option<Kind>): Outcome {
    Resolve(snap, counters, requested, kind, {requested})
  }

  // ---- Soundness and completeness of the search --------------------------------------

  /** A walk along fallback edges. */
  predicate Walk(snap: Snapshot, path: seq<string>) {
    path != [] && forall i | 0 <= i < |path| - 1 :: path[i + 1] in Fallbacks(snap, path[i])
  }

  ghost predicate Reachable(snap: Snapshot, from: string, to: string) {
    exists path :: Walk(snap, path) && path[0] == from && path[|path| - 1] == to
  }

  lemma ReachSelf(snap: Snapshot, id: string)
    ensures Reachable(snap, id, id)
  {
    assert Walk(snap, [id]);
  }

  lemma ReachStep(snap: Snapshot, from: string, next: string, to: string)
    requires next in Fallbacks(snap, from) && Reachable(snap, next, to)
    ensures Reachable(snap, from, to)
  {
    var path :| Walk(snap, path) && path[0] == next && path[|path| - 1] == to;
    var longer := [from] + path;
    forall i | 0 <= i < |longer| - 1 ensures longer[i + 1] in Fallbacks(snap, longer[i]) {
      if i > 0 { assert path[i] in Fallbacks(snap, path[i - 1]); }
    }
    assert Walk(snap, longer);
  }

  /** A service that is found is a local service of an id reachable over the
      fallback edges; the edge taken first is the one reported. */
  lemma {:induction false} ResolveSound(snap: Snapshot, counters: Counters, id: string, kind: Option<Kind>, visited: set<string>)
    requires Served(Resolve(snap, counters, id, kind, visited).resolution).Some?
    ensures var r := Resolve(snap, counters, id, kind, visited).resolution;
            match r
            case ViaRole(role, Some(s), Some(via)) =>
              && !HasLocal(snap, id, kind) && role == snap.roles[id]
              && via in Fallbacks(snap, id) && via !in visited
              && exists x :: Reachable(snap, via, x) && LocalService(snap, x, None, s)
            case _ => LocalService(snap, id, kind, Served(r).value)
    decreases |Universe(snap) - visited|, |Fallbacks(snap, id)| + 1
  {
    var direct := DirectCandidates(snap, id, kind);
    if direct != [] {
      BestIsMember(direct, ByDirectScore());
    } else if RoleCandidates(snap, id, kind) == [] {
      SearchSound(snap, counters, Fallbacks(snap, id), visited);
    } else {
      var role := snap.roles[id];
      var candidates := RoleCandidates(snap, id, kind);
      NarrowedMeaning(candidates, role);
      ScheduledIsMember(snap.strategy, counters, id, Narrowed(candidates, role), role);
    }
  }

  /** Short of paths: what is served is local to the id asked for or to one reachable from it. */
  ghost predicate LocalWithin(snap: Snapshot, id: string, kind: Option<Kind>, s: Service) {
    LocalService(snap, id, kind, s) || exists x :: Reachable(snap, id, x) && LocalService(snap, x, None, s)
  }

  lemma ServedIsLocalWithin(snap: Snapshot, counters: Counters, requested: string, kind: Option<Kind>)
    requires Served(ResolveRoute(snap, counters, requested, kind).resolution).Some?
    ensures LocalWithin(snap, requested, kind, Served(ResolveRoute(snap, counters, requested, kind).resolution).value)
  {
    var r := ResolveRoute(snap, counters, requested, kind).resolution;
    ResolveSound(snap, counters, requested, kind, {requested});
    if r.ViaRole? && r.fallbackVia.Some? {
      var x :| Reachable(snap, r.fallbackVia.value, x) && LocalService(snap, x, None, Served(r).value);
      ReachStep(snap, requested, r.fallbackVia.value, x);
    }
  }

  lemma ScheduledIsMember(strategy: Strategy, counters: Counters, key: string, candidates: seq<Service>, role: Role)
    requires candidates != []
    ensures Scheduled(strategy, counters, key, candidates, role).0 in candidates
  {
    match strategy {
      case RoundRobin =>
      case LeastLoaded => BestIsMember(candidates, ByLoad());
      case Scored => BestIsMember(candidates, ByScore(role));
    }
  }

  lemma {:induction false} SearchSound(snap: Snapshot, counters: Counters, ids: seq<string>, visited: set<string>)
    requires Known(snap, ids) && Search(snap, counters, ids, visited).hit.Some?
    ensures var (s, via) := Search(snap, counters, ids, visited).hit.value;
            && via in ids && via !in visited
            && exists x :: Reachable(snap, via, x) && LocalService(snap, x, None, s)
    decreases |Universe(snap) - visited|, |ids|
  {
    if ids[0] in visited {
      SearchSound(snap, counters, ids[1..], visited);
    } else {
      Shrinks(snap, ids[0], visited, visited + {ids[0]});
      var out := Resolve(snap, counters, ids[0], None, visited + {ids[0]});
      if Served(out.resolution).Some? {
        ResolveSound(snap, counters, ids[0], None, visited + {ids[0]});
        ReachSelf(snap, ids[0]);
        if out.resolution.ViaRole? && out.resolution.fallbackVia.Some? {
          var x :| Reachable(snap, out.resolution.fallbackVia.value, x) && LocalService(snap, x, None, out.resolution.served.value);
          ReachStep(snap, ids[0], out.resolution.fallbackVia.value, x);
        }
      } else {
        Shrinks(snap, ids[0], visited, out.visited);
        SearchSound(snap, out.counters, ids[1..], out.visited);
      }
    }
  }

  /** What a failed search leaves behind: the ids it newly marked find nothing
      locally, and all their fallbacks are marked too. */
  ghost predicate Exhausted(snap: Snapshot, before: set<string>, after: set<string>) {
    forall x | x in after && x !in before :: !HasLocal(snap, x, None) && FallbacksIn(snap, x, after)
  }

  predicate FallbacksIn(snap: Snapshot, id: string, ids: set<string>) {
    forall i | 0 <= i < |Fallbacks(snap, id)| :: Fallbacks(snap, id)[i] in ids
  }

  lemma {:induction false} ResolveFails(snap: Snapshot, counters: Counters, id: string, kind: Option<Kind>, visited: set<string>)
    requires Served(Resolve(snap, counters, id, kind, visited).resolution).None?
    ensures var out := Resolve(snap, counters, id, kind, visited);
            && !HasLocal(snap, id, kind)
            && Exhausted(snap, visited, out.visited)
            && out.counters == counters
            && FallbacksIn(snap, id, out.visited)
    decreases |Universe(snap) - visited|, |Fallbacks(snap, id)| + 1
  {
    if id in snap.roles && RoleCandidates(snap, id, kind) == [] {
      SearchFails(snap, counters, Fallbacks(snap, id), visited);
      SearchMarksAll(snap, counters, Fallbacks(snap, id), visited);
    }
  }

  lemma {:induction false} SearchFails(snap: Snapshot, counters: Counters, ids: seq<string>, visited: set<string>)
    requires Known(snap, ids) && Search(snap, counters, ids, visited).hit.None?
    ensures var out := Search(snap, counters, ids, visited);
            Exhausted(snap, visited, out.visited) && out.counters == counters
    decreases |Universe(snap) - visited|, |ids|
  {
    if ids != [] {
      if ids[0] in visited {
        SearchFails(snap, counters, ids[1..], visited);
      } else {
        var out := FirstFallbackFails(snap, counters, ids, visited);
        Shrinks(snap, ids[0], visited, visited + {ids[0]});
        Shrinks(snap, ids[0], visited, out.visited);
        ResolveFails(snap, counters, ids[0], None, visited + {ids[0]});
        SearchFails(snap, out.counters, ids[1..], out.visited);
        ExhaustedOneMore(snap, ids[0], visited, out.visited, Search(snap, out.counters, ids[1..], out.visited).visited);
      }
    }
  }

  lemma FirstFallbackFails(snap: Snapshot, counters: Counters, ids: seq<string>, visited: set<string>) returns (out: Outcome)
    requires ids != [] && ids[0] !in visited
    requires Known(snap, ids) && Search(snap, counters, ids, visited).hit.None?
    ensures out == Resolve(snap, counters, ids[0], None, visited + {ids[0]}) && Served(out.resolution).None?
    ensures Search(snap, counters, ids, visited) == Search(snap, out.counters, ids[1..], out.visited)
  {
    out := Resolve(snap, counters, ids[0], None, visited + {ids[0]});
  }

  lemma {:induction false} SearchMarksAll(snap: Snapshot, counters: Counters, ids: seq<string>, visited: set<string>)
    requires Known(snap, ids) && Search(snap, counters, ids, visited).hit.None?
    ensures forall i | 0 <= i < |ids| :: ids[i] in Search(snap, counters, ids, visited).visited
    decreases |ids|
  {
    if ids != [] {
      var rest := ids[1..];
      if ids[0] in visited {
        SearchMarksAll(snap, counters, rest, visited);
      } else {
        var out := Resolve(snap, counters, ids[0], None, visited + {ids[0]});
        SearchMarksAll(snap, out.counters, rest, out.visited);
      }
      forall i | 1 <= i < |ids| ensures ids[i] in Search(snap, counters, ids, visited).visited {
        assert ids[i] == rest[i - 1];
      }
    }
  }

  lemma ExhaustedOneMore(snap: Snapshot, id: string, before: set<string>, middle: set<string>, after: set<string>)
    requires !HasLocal(snap, id, None) && id in middle && middle <= after
    requires FallbacksIn(snap, id, middle)
    requires Exhausted(snap, before + {id}, middle) && Exhausted(snap, middle, after)
    ensures Exhausted(snap, before, after)
  {
  }

  /** A walk from a marked id cannot leave a set of marked ids that is closed. */
  lemma {:induction false} WalkStaysInside(snap: Snapshot, path: seq<string>, closed: set<string>)
    requires Walk(snap, path) && path[0] in closed
    requires forall x | x in closed :: FallbacksIn(snap, x, closed)
    ensures path[|path| - 1] in closed
    decreases |path|
  {
    if |path| > 1 {
      var rest := path[1..];
      forall i | 0 <= i < |rest| - 1 ensures rest[i + 1] in Fallbacks(snap, rest[i]) {
        assert path[i + 2] in Fallbacks(snap, path[i + 1]);
      }
      assert path[1] in Fallbacks(snap, path[0]);
      WalkStaysInside(snap, rest, closed);
    }
  }

  /** The search terminates on every catalogue, cyclic or not (it is a total
      function), and it finds a service exactly when the requested id has one
      for the requested kind or some other reachable id has one of its own. */
  lemma SearchIsComplete(snap: Snapshot, counters: Counters, requested: string, kind: Option<Kind>)
    ensures Served(ResolveRoute(snap, counters, requested, kind).resolution).Some?
            <==>
            || HasLocal(snap, requested, kind)
            || exists x :: x != requested && Reachable(snap, requested, x) && HasLocal(snap, x, None)
  {
    var out := ResolveRoute(snap, counters, requested, kind);
    if Served(out.resolution).Some? {
      if !HasLocal(snap, requested, kind) {
        NotItsOwnFallback(snap, counters, requested, kind);
      }
    } else {
      ResolveFails(snap, counters, requested, kind, {requested});
      forall x | x != requested && Reachable(snap, requested, x) ensures !HasLocal(snap, x, None) {
        var path :| Walk(snap, path) && path[0] == requested && path[|path| - 1] == x;
        WalkStaysInside(snap, path, out.visited);
      }
    }
  }

  /** Ids that answer during a search are ids the search had not visited when it began. */
  lemma {:induction false} FreshAnswer(snap: Snapshot, counters: Counters, id: string, kind: Option<Kind>, visited: set<string>) returns (x: string)
    requires Served(Resolve(snap, counters, id, kind, visited).resolution).Some?
    ensures Reachable(snap, id, x)
    ensures (x == id && HasLocal(snap, id, kind)) || (x !in visited && HasLocal(snap, x, None))
    decreases |Universe(snap) - visited|, |Fallbacks(snap, id)| + 1
  {
    if HasLocal(snap, id, kind) {
      x := id;
      ReachSelf(snap, id);
    } else {
      var via: string;
      via, x := FreshHit(snap, counters, Fallbacks(snap, id), visited);
      ReachStep(snap, id, via, x);
    }
  }

  lemma {:induction false} FreshHit(snap: Snapshot, counters: Counters, ids: seq<string>, visited: set<string>) returns (via: string, x: string)
    requires Known(snap, ids) && Search(snap, counters, ids, visited).hit.Some?
    ensures via in ids && Reachable(snap, via, x) && x !in visited && HasLocal(snap, x, None)
    decreases |Universe(snap) - visited|, |ids|
  {
    if ids[0] in visited {
      via, x := FreshHit(snap, counters, ids[1..], visited);
    } else {
      Shrinks(snap, ids[0], visited, visited + {ids[0]});
      var out := Resolve(snap, counters, ids[0], None, visited + {ids[0]});
      if Served(out.resolution).Some? {
        via := ids[0];
        x := FreshAnswer(snap, counters, ids[0], None, visited + {ids[0]});
      } else {
        Shrinks(snap, ids[0], visited, out.visited);
        via, x := FreshHit(snap, out.counters, ids[1..], out.visited);
      }
    }
  }

  lemma NotItsOwnFallback(snap: Snapshot, counters: Counters, requested: string, kind: Option<Kind>)
    requires Served(ResolveRoute(snap, counters, requested, kind).resolution).Some? && !HasLocal(snap, requested, kind)
    ensures exists x :: x != requested && Reachable(snap, requested, x) && HasLocal(snap, x, None)
  {
    var x := FreshAnswer(snap, counters, requested, kind, {requested});
  }

  // ---- The order of the search -------------------------------------------------------

  /** What kind of answer an id gets: a direct match comes first, then the role
      of that id, with its own services before its fallbacks. */
  lemma AnswerShape(snap: Snapshot, counters: Counters, id: string, kind: Option<Kind>, visited: set<string>)
    ensures var r := Resolve(snap, counters, id, kind, visited).resolution;
            && (r.Direct? <==> DirectCandidates(snap, id, kind) != [])
            && (r.Unknown? <==> DirectCandidates(snap, id, kind) == [] && id !in snap.roles)
            && (r.ViaRole? ==>
                  && r.role == snap.roles[id]
                  && (r.fallbackVia.Some? ==> r.served.Some?)
                  && (RoleCandidates(snap, id, kind) != [] <==> r.served.Some? && r.fallbackVia.None?))
  {
  }

  /** A search that hits at `via` has exhausted everything before it in the list,
      and serves what resolving `via` from there gives. */
  lemma {:induction false} SearchOrder(snap: Snapshot, counters: Counters, ids: seq<string>, visited: set<string>)
    returns (i: nat, mid: set<string>)
    requires Known(snap, ids) && Search(snap, counters, ids, visited).hit.Some?
    ensures var (s, via) := Search(snap, counters, ids, visited).hit.value;
            && i < |ids| && ids[i] == via && via !in mid && visited <= mid
            && (forall j | 0 <= j < i :: ids[j] in mid)
            && Exhausted(snap, visited, mid)
            && Served(Resolve(snap, counters, via, None, mid + {via}).resolution) == Some(s)
    decreases |Universe(snap) - visited|, |ids|
  {
    if ids[0] in visited {
      var k: nat;
      k, mid := SearchOrder(snap, counters, ids[1..], visited);
      i := k + 1;
      OneFurther(ids, k, mid);
    } else {
      Shrinks(snap, ids[0], visited, visited + {ids[0]});
      var out := Resolve(snap, counters, ids[0], None, visited + {ids[0]});
      if Served(out.resolution).Some? {
        i, mid := 0, visited;
      } else {
        Shrinks(snap, ids[0], visited, out.visited);
        ResolveFails(snap, counters, ids[0], None, visited + {ids[0]});
        var k: nat;
        k, mid := SearchOrder(snap, out.counters, ids[1..], out.visited);
        i := k + 1;
        ExhaustedOneMore(snap, ids[0], visited, out.visited, mid);
        OneFurther(ids, k, mid);
      }
    }
  }

  lemma OneFurther(ids: seq<string>, k: nat, mid: set<string>)
    requires ids != [] && k < |ids| - 1 && ids[0] in mid
    requires forall j | 0 <= j < k :: ids[1..][j] in mid
    ensures forall j | 0 <= j < k + 1 :: ids[j] in mid
  {
    assert forall j | 1 <= j < k + 1 :: ids[j] == ids[1..][j - 1];
  }

  /** A walk along fallback edges that does not pass through one id. */
  ghost predicate ReachableAround(snap: Snapshot, from: string, to: string, avoided: string) {
    exists path :: Walk(snap, path) && path[0] == from && path[|path| - 1] == to && avoided !in path
  }

  lemma {:induction false} WalkStaysExhausted(snap: Snapshot, path: seq<string>, avoided: string, mid: set<string>)
    requires Walk(snap, path) && avoided !in path && path[0] in mid && Exhausted(snap, {avoided}, mid)
    ensures path[|path| - 1] in mid
    decreases |path|
  {
    if |path| > 1 {
      var rest := path[1..];
      forall i | 0 <= i < |rest| - 1 ensures rest[i + 1] in Fallbacks(snap, rest[i]) {
        assert path[i + 2] in Fallbacks(snap, path[i + 1]);
      }
      assert path[0] in path && path[1] in Fallbacks(snap, path[0]);
      WalkStaysExhausted(snap, rest, avoided, mid);
    }
  }

  /** Fallbacks are tried in the order the role lists them: whatever could be
      reached over an earlier one without coming back to the role has no service
      of its own; and if the one that answers has services of its own, one of
      them serves, else what resolving it in turn gives. */
  lemma FallbackOrder(snap: Snapshot, counters: Counters, requested: string, kind: Option<Kind>)
    requires var r := ResolveRoute(snap, counters, requested, kind).resolution; r.ViaRole? && r.fallbackVia.Some?
    ensures var r := ResolveRoute(snap, counters, requested, kind).resolution;
            var via, ids := r.fallbackVia.value, snap.roles[requested].routing.fallbackRoles;
            && (exists i :: 0 <= i < |ids| && ids[i] == via
                  && forall j, x | 0 <= j < i && ReachableAround(snap, ids[j], x, requested) :: !HasLocal(snap, x, None))
            && (exists mid: set<string> :: requested in mid
                  && Served(Resolve(snap, counters, via, None, mid + {via}).resolution) == r.served)
            && (HasLocal(snap, via, None) ==> LocalService(snap, via, None, r.served.value))
  {
    var r := ResolveRoute(snap, counters, requested, kind).resolution;
    var via, ids := r.fallbackVia.value, snap.roles[requested].routing.fallbackRoles;
    FallbackIsHit(snap, counters, requested, kind);
    var i, mid := SearchOrder(snap, counters, ids, {requested});
    forall j, x | 0 <= j < i && ReachableAround(snap, ids[j], x, requested) ensures !HasLocal(snap, x, None) {
      var path :| Walk(snap, path) && path[0] == ids[j] && path[|path| - 1] == x && requested !in path;
      WalkStaysExhausted(snap, path, requested, mid);
      assert x in path;
    }
    assert requested in mid && Served(Resolve(snap, counters, via, None, mid + {via}).resolution) == r.served;
    ResolveSound(snap, counters, via, None, mid + {via});
  }

  lemma FallbackIsHit(snap: Snapshot, counters: Counters, requested: string, kind: Option<Kind>)
    requires var r := ResolveRoute(snap, counters, requested, kind).resolution; r.ViaRole? && r.fallbackVia.Some?
    ensures requested in snap.roles
    ensures var r := ResolveRoute(snap, counters, requested, kind).resolution;
            Search(snap, counters, snap.roles[requested].routing.fallbackRoles, {requested}).hit
            == Some((r.served.value, r.fallbackVia.value)) && r.served.Some?
  {
  }

  // ---- What is served --------------------------------------------------------------

  lemma DirectOrder()
    ensures StrictOrder(ByDirectScore())
  {
    forall a: Service, b: Service, c: Service
      ensures !ByDirectScore()(a, a)
      ensures ByDirectScore()(a, b) && ByDirectScore()(b, c) ==> ByDirectScore()(a, c)
      ensures a.serviceId != b.serviceId ==> ByDirectScore()(a, b) || ByDirectScore()(b, a)
    {
      OutscoresOrder(DirectScore(a), DirectScore(b), DirectScore(c));
    }
  }

  /** A direct match is allowed, bears the requested name, and is the unique best
      of all services that do: loaded first, then lower latency, then the later id. */
  lemma DirectMatchIsBest(snap: Snapshot, counters: Counters, requested: string, kind: Option<Kind>)
    requires DistinctServices(snap.services) && ResolveRoute(snap, counters, requested, kind).resolution.Direct?
    ensures var s := ResolveRoute(snap, counters, requested, kind).resolution.service;
            && s in snap.services && (kind.Some? ==> s.kind == kind.value)
            && AllowedForDirect(snap, s) && Named(s, requested)
            && forall r | r in snap.services && r != s && (kind.Some? ==> r.kind == kind.value)
                          && AllowedForDirect(snap, r) && Named(r, requested) ::
                 Outscores(DirectScore(s), DirectScore(r))
  {
    var keep := (s: Service) => (kind.Some? ==> s.kind == kind.value) && AllowedForDirect(snap, s) && Named(s, requested);
    var direct := DirectCandidates(snap, requested, kind);
    FilterMembers(snap.services, keep);
    FilterDistinct(snap.services, keep);
    DirectOrder();
    BestIsOptimal(direct, ByDirectScore());
  }

  /** Only a fallback can serve another kind of operation than the one asked for. */
  lemma KindIsKeptWithoutFallback(snap: Snapshot, counters: Counters, requested: string, kind: Kind)
    requires var r := ResolveRoute(snap, counters, requested, Some(kind)).resolution;
             Served(r).Some? && !(r.ViaRole? && r.fallbackVia.Some?)
    ensures Served(ResolveRoute(snap, counters, requested, Some(kind)).resolution).value.kind == kind
  {
    ResolveSound(snap, counters, requested, Some(kind), {requested});
    FilterMembers(snap.services, (s: Service) => (Some(kind).Some? ==> s.kind == Some(kind).value) && AllowedForDirect(snap, s) && Named(s, requested));
    if requested in snap.roles {
      var role := snap.roles[requested];
      FilterMembers(snap.services, (s: Service) => s.kind == RoleKind(role, Some(kind)) && AllowedForRole(snap, s, role));
    }
  }

  // ---- Where a resolution ends, before any scheduling -----------------------------------

  /** Who answers: nobody, a direct match, or the services left in the running
      for the role that ends the search. */
  datatype Server = Nobody | One(service: Service) | Pool(id: string, role: Role, running: seq<Service>)

  function Locate(snap: Snapshot, id: string, kind: Option<Kind>, visited: set<string>): (r: (Server, set<string>))
    ensures visited <= r.1
    ensures r.0.Pool? ==> r.0.running != []
    decreases |Universe(snap) - visited|, |Fallbacks(snap, id)| + 1
  {
    var direct := DirectCandidates(snap, id, kind);
    if direct != [] then (One(Best(direct, ByDirectScore())), visited)
    else if id !in snap.roles then (Nobody, visited)
    else
      var role := snap.roles[id];
      var candidates := Candidates(snap, role, RoleKind(role, kind));
      NarrowedMeaning(candidates, role);
      if candidates == [] then LocateIn(snap, role.routing.fallbackRoles, visited)
      else (Pool(id, role, Narrowed(candidates, role)), visited)
  }

  function LocateIn(snap: Snapshot, ids: seq<string>, visited: set<string>): (r: (Server, set<string>))
    requires Known(snap, ids)
    ensures visited <= r.1
    ensures r.0.Pool? ==> r.0.running != []
    decreases |Universe(snap) - visited|, |ids|
  {
    if ids == [] then (Nobody, visited)
    else if ids[0] in visited then LocateIn(snap, ids[1..], visited)
    else
      Shrinks(snap, ids[0], visited, visited + {ids[0]});
      var (server, after) := Locate(snap, ids[0], None, visited + {ids[0]});
      if !server.Nobody? then (server, after)
      else
        Shrinks(snap, ids[0], visited, after);
        LocateIn(snap, ids[1..], after)
  }

  /** The service a located server gives next, and the counters afterwards. */
  function Serve(strategy: Strategy, counters: Counters, server: Server): (Option<Service>, Counters)
    requires server.Pool? ==> server.running != []
  {
    match server
    case Nobody => (None, counters)
    case One(s) => (Some(s), counters)
    case Pool(id, role, running) =>
      var (s, after) := Scheduled(strategy, counters, id, running, role);
      (Some(s), after)
  }

  /** The search never looks at the counters: resolving is locating, then serving. */
  lemma {:induction false} ResolveIsLocateThenServe(snap: Snapshot, counters: Counters, id: string, kind: Option<Kind>, visited: set<string>)
    ensures var out := Resolve(snap, counters, id, kind, visited);
            var (server, after) := Locate(snap, id, kind, visited);
            out.visited == after && (Served(out.resolution), out.counters) == Serve(snap.strategy, counters, server)
    decreases |Universe(snap) - visited|, |Fallbacks(snap, id)| + 1
  {
    if DirectCandidates(snap, id, kind) == [] && id in snap.roles && RoleCandidates(snap, id, kind) == [] {
      SearchIsLocateThenServe(snap, counters, Fallbacks(snap, id), visited);
    }
  }

  lemma {:induction false} SearchIsLocateThenServe(snap: Snapshot, counters: Counters, ids: seq<string>, visited: set<string>)
    requires Known(snap, ids)
    ensures var out := Search(snap, counters, ids, visited);
            var (server, after) := LocateIn(snap, ids, visited);
            && out.visited == after
            && ((if out.hit.Some? then Some(out.hit.value.0) else None), out.counters) == Serve(snap.strategy, counters, server)
    decreases |Universe(snap) - visited|, |ids|
  {
    if ids != [] {
      if ids[0] in visited {
        SearchIsLocateThenServe(snap, counters, ids[1..], visited);
      } else {
        Shrinks(snap, ids[0], visited, visited + {ids[0]});
        ResolveIsLocateThenServe(snap, counters, ids[0], None, visited + {ids[0]});
        var out := Resolve(snap, counters, ids[0], None, visited + {ids[0]});
        if Served(out.resolution).None? {
          Shrinks(snap, ids[0], visited, out.visited);
          SearchIsLocateThenServe(snap, out.counters, ids[1..], out.visited);
        }
      }
    }
  }

  /** A pool's services are distinct. */
  lemma {:induction false} PoolDistinct(snap: Snapshot, id: string, kind: Option<Kind>, visited: set<string>)
    requires DistinctServices(snap.services)
    ensures var server := Locate(snap, id, kind, visited).0;
            server.Pool? ==> DistinctServices(server.running)
    decreases |Universe(snap) - visited|, |Fallbacks(snap, id)| + 1
  {
    if DirectCandidates(snap, id, kind) == [] && id in snap.roles {
      var role := snap.roles[id];
      if RoleCandidates(snap, id, kind) == [] {
        PoolDistinctIn(snap, Fallbacks(snap, id), visited);
      } else {
        FilterDistinct(snap.services, (s: Service) => s.kind == RoleKind(role, kind) && AllowedForRole(snap, s, role));
        NarrowedDistinct(Candidates(snap, role, RoleKind(role, kind)), role);
      }
    }
  }

  lemma {:induction false} PoolDistinctIn(snap: Snapshot, ids: seq<string>, visited: set<string>)
    requires DistinctServices(snap.services) && Known(snap, ids)
    ensures var server := LocateIn(snap, ids, visited).0;
            server.Pool? ==> DistinctServices(server.running)
    decreases |Universe(snap) - visited|, |ids|
  {
    if ids != [] {
      if ids[0] in visited {
        PoolDistinctIn(snap, ids[1..], visited);
      } else {
        Shrinks(snap, ids[0], visited, visited + {ids[0]});
        PoolDistinct(snap, ids[0], None, visited + {ids[0]});
        var (server, after) := Locate(snap, ids[0], None, visited + {ids[0]});
        if server.Nobody? {
          Shrinks(snap, ids[0], visited, after);
          PoolDistinctIn(snap, ids[1..], after);
        }
      }
    }
  }
}
