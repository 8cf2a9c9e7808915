/** Resolving does not depend on the order in which the tables list their rows,
    except that round robin takes turns in that order. */
module RowOrder {
  import opened Common
  import opened Entities
  import opened Selection
  import opened Routing

  /** Two listings of the same tables. */
  ghost predicate SameRows(a: Snapshot, b: Snapshot) {
    && a.hosts == b.hosts && a.roles == b.roles && a.strategy == b.strategy
    && DistinctServices(a.services) && DistinctServices(b.services)
    && forall s :: s in a.services <==> s in b.services
  }

  ghost predicate SameMembers(xs: seq<Service>, ys: seq<Service>) {
    DistinctServices(xs) && DistinctServices(ys) && forall s :: s in xs <==> s in ys
  }

  lemma EmptyTogether(xs: seq<Service>, ys: seq<Service>)
    requires SameMembers(xs, ys)
    ensures xs == [] <==> ys == []
  {
    if xs != [] { assert xs[0] in ys; }
    if ys != [] { assert ys[0] in xs; }
  }

  lemma FilterSame(xs: seq<Service>, ys: seq<Service>, p: Service -> bool, q: Service -> bool)
    requires SameMembers(xs, ys) && forall s :: p(s) == q(s)
    ensures SameMembers(Filter(xs, p), Filter(ys, q))
  {
    FilterMembers(xs, p);
    FilterMembers(ys, q);
    FilterDistinct(xs, p);
    FilterDistinct(ys, q);
  }

  lemma CandidatesSame(a: Snapshot, b: Snapshot, role: Role, kind: Kind)
    requires SameRows(a, b)
    ensures SameMembers(Candidates(a, role, kind), Candidates(b, role, kind))
  {
    FilterSame(a.services, b.services, (s: Service) => s.kind == kind && AllowedForRole(a, s, role),
               (s: Service) => s.kind == kind && AllowedForRole(b, s, role));
  }

  lemma NarrowedSame(xs: seq<Service>, ys: seq<Service>, role: Role)
    requires SameMembers(xs, ys)
    ensures SameMembers(Narrowed(xs, role), Narrowed(ys, role))
  {
    NarrowedMeaning(xs, role);
    NarrowedMeaning(ys, role);
    NarrowedDistinct(xs, role);
    NarrowedDistinct(ys, role);
  }

  /** Eligibility, narrowing and the choice see the set of rows only. */
  lemma ScheduledSame(a: Snapshot, b: Snapshot, counters: Counters, key: string, role: Role, kind: Kind)
    requires SameRows(a, b) && a.strategy != RoundRobin
    ensures var xs, ys := Narrowed(Candidates(a, role, kind), role), Narrowed(Candidates(b, role, kind), role);
            && (xs == [] <==> ys == [])
            && (xs != [] && ys != [] ==>
                  Scheduled(a.strategy, counters, key, xs, role) == Scheduled(b.strategy, counters, key, ys, role))
  {
    var xs, ys := Narrowed(Candidates(a, role, kind), role), Narrowed(Candidates(b, role, kind), role);
    CandidatesSame(a, b, role, kind);
    NarrowedSame(Candidates(a, role, kind), Candidates(b, role, kind), role);
    EmptyTogether(xs, ys);
    if xs != [] {
      ByLoadIsStrict();
      ByScoreIsStrict(role);
      RowOrderIrrelevant(xs, ys, ByLoad());
      RowOrderIrrelevant(xs, ys, ByScore(role));
    }
  }

  lemma DirectSame(a: Snapshot, b: Snapshot, id: string, kind: Option<Kind>)
    requires SameRows(a, b)
    ensures var xs, ys := DirectCandidates(a, id, kind), DirectCandidates(b, id, kind);
            && (xs == [] <==> ys == [])
            && (xs != [] && ys != [] ==> Best(xs, ByDirectScore()) == Best(ys, ByDirectScore()))
  {
    var xs, ys := DirectCandidates(a, id, kind), DirectCandidates(b, id, kind);
    FilterSame(a.services, b.services,
               (s: Service) => (kind.Some? ==> s.kind == kind.value) && AllowedForDirect(a, s) && Named(s, id),
               (s: Service) => (kind.Some? ==> s.kind == kind.value) && AllowedForDirect(b, s) && Named(s, id));
    EmptyTogether(xs, ys);
    if xs != [] {
      DirectOrder();
      RowOrderIrrelevant(xs, ys, ByDirectScore());
    }
  }

  lemma RoleSame(a: Snapshot, b: Snapshot, counters: Counters, id: string, role: Role, kind: Kind)
    requires SameRows(a, b) && a.strategy != RoundRobin
    ensures var xs, ys := Candidates(a, role, kind), Candidates(b, role, kind);
            && (xs == [] <==> ys == [])
            && (Narrowed(xs, role) == [] <==> xs == []) && (Narrowed(ys, role) == [] <==> ys == [])
            && (Narrowed(xs, role) != [] && Narrowed(ys, role) != [] ==>
                  Scheduled(a.strategy, counters, id, Narrowed(xs, role), role)
                  == Scheduled(b.strategy, counters, id, Narrowed(ys, role), role))
  {
    NarrowedMeaning(Candidates(a, role, kind), role);
    NarrowedMeaning(Candidates(b, role, kind), role);
    ScheduledSame(a, b, counters, id, role, kind);
  }

  /** The whole search, fallbacks included, gives the same outcome for every
      order in which the services are listed. */
  lemma {:induction false} ResolveSame(a: Snapshot, b: Snapshot, counters: Counters, id: string, kind: Option<Kind>, visited: set<string>)
    requires SameRows(a, b) && a.strategy != RoundRobin
    ensures Resolve(a, counters, id, kind, visited) == Resolve(b, counters, id, kind, visited)
    decreases |Universe(a) - visited|, |Fallbacks(a, id)| + 1
  {
    DirectSame(a, b, id, kind);
    if DirectCandidates(a, id, kind) == [] && id in a.roles {
      var role := a.roles[id];
      RoleSame(a, b, counters, id, role, RoleKind(role, kind));
      if Candidates(a, role, RoleKind(role, kind)) == [] {
        SearchSame(a, b, counters, role.routing.fallbackRoles, visited);
      }
    }
  }

  lemma {:induction false} SearchSame(a: Snapshot, b: Snapshot, counters: Counters, ids: seq<string>, visited: set<string>)
    requires SameRows(a, b) && a.strategy != RoundRobin && Known(a, ids) && Known(b, ids)
    ensures Search(a, counters, ids, visited) == Search(b, counters, ids, visited)
    decreases |Universe(a) - visited|, |ids|
  {
    if ids != [] {
      if ids[0] in visited {
        SearchSame(a, b, counters, ids[1..], visited);
      } else {
        Shrinks(a, ids[0], visited, visited + {ids[0]});
        ResolveSame(a, b, counters, ids[0], None, visited + {ids[0]});
        var out := Resolve(a, counters, ids[0], None, visited + {ids[0]});
        if Served(out.resolution).None? {
          Shrinks(a, ids[0], visited, out.visited);
          SearchSame(a, b, out.counters, ids[1..], out.visited);
        }
      }
    }
  }
}
