/** What the scores of route matching respond to, in which direction and by how
    much, and which routes are candidates at all. */
module Signals {
  import opened Common
  import opened Entities
  import opened Selection
  import opened Routing
  import opened Ordering
  import opened Matching

  // ---- Rounding and overlap --------------------------------------------------------------

  /** A score is given to the nearest ten-thousandth. */
  lemma RoundsToNearest(x: real)
    ensures -1.0 <= 20000.0 * (Round4(x) - x) <= 1.0
    ensures (Round4(x) * 10000.0).Floor as real == Round4(x) * 10000.0
  {
    var whole := (x * 10000.0).Floor;
    assert Round4(x) * 10000.0 == whole as real || Round4(x) * 10000.0 == (whole + 1) as real;
  }

  /** Overlap is the share of the asked-for tokens that the candidate has. */
  lemma OverlapMeaning(query: set<string>, candidate: set<string>)
    ensures query == {} ==> Overlap(query, candidate) == 0.0
    ensures Overlap(query, candidate) * (|query| as real) == |query * candidate| as real
  {
    if query != {} && candidate != {} {
      SubsetSize(query * candidate, query);
      var share := |query * candidate| as real / |query| as real;
      assert share * |query| as real == |query * candidate| as real;
      ShareAtMostOne(|query * candidate|, |query|);
    } else if candidate == {} {
      assert query * candidate == {};
    }
  }

  lemma ShareAtMostOne(a: nat, b: nat)
    requires a <= b && b > 0
    ensures a as real / b as real <= 1.0
  {
  }

  // ---- Runtime -----------------------------------------------------------------------------

  const UNSEEN := Observed(None, None, None, None, None)

  /** Which reports score more: loaded, faster, more throughput, a shorter queue, not busy. */
  lemma RuntimeDirections(s: Service, t: Service, a: real, b: real, m: int, n: int)
    requires a <= b && m <= n
    ensures RuntimeScore(s.(observed := s.observed.(p50LatencyMs := Some(a))))
            >= RuntimeScore(s.(observed := s.observed.(p50LatencyMs := Some(b))))
            >= RuntimeScore(s.(observed := s.observed.(p50LatencyMs := None)))
    ensures RuntimeScore(s.(observed := s.observed.(tokensPerSec := Some(b))))
            >= RuntimeScore(s.(observed := s.observed.(tokensPerSec := Some(a))))
            >= RuntimeScore(s.(observed := s.observed.(tokensPerSec := None)))
    ensures RuntimeScore(s.(observed := s.observed.(queueDepth := Some(m))))
            >= RuntimeScore(s.(observed := s.observed.(queueDepth := Some(n))))
    ensures RuntimeScore(s.(observed := s.observed.(queueDepth := None)))
            >= RuntimeScore(s.(observed := s.observed.(queueDepth := Some(n))))
    ensures RuntimeScore(s.(state := s.state.(availability := Available)))
            >= RuntimeScore(s.(state := s.state.(availability := Busy)))
    ensures t == s.(assets := t.assets) && t.AnyLoaded() && !s.AnyLoaded() ==> RuntimeScore(t) >= RuntimeScore(s)
  {
    hide RuntimeScore;
    LatencyDirection(s, a, b);
    ThroughputDirection(s, a, b);
    QueueDirection(s, m, n);
    StateDirection(s, t);
  }

  lemma StateDirection(s: Service, t: Service)
    ensures RuntimeScore(s.(state := s.state.(availability := Available)))
            >= RuntimeScore(s.(state := s.state.(availability := Busy)))
    ensures t == s.(assets := t.assets) && t.AnyLoaded() && !s.AnyLoaded() ==> RuntimeScore(t) >= RuntimeScore(s)
  {
    assert s.(state := s.state.(availability := Available)).AnyLoaded() == s.(state := s.state.(availability := Busy)).AnyLoaded();
  }

  lemma LatencyDirection(s: Service, a: real, b: real)
    requires a <= b
    ensures RuntimeScore(s.(observed := s.observed.(p50LatencyMs := Some(a))))
            >= RuntimeScore(s.(observed := s.observed.(p50LatencyMs := Some(b))))
            >= RuntimeScore(s.(observed := s.observed.(p50LatencyMs := None)))
  {
  }

  lemma ThroughputDirection(s: Service, a: real, b: real)
    requires a <= b
    ensures RuntimeScore(s.(observed := s.observed.(tokensPerSec := Some(b))))
            >= RuntimeScore(s.(observed := s.observed.(tokensPerSec := Some(a))))
            >= RuntimeScore(s.(observed := s.observed.(tokensPerSec := None)))
  {
  }

  lemma QueueDirection(s: Service, m: int, n: int)
    requires m <= n
    ensures RuntimeScore(s.(observed := s.observed.(queueDepth := Some(m))))
            >= RuntimeScore(s.(observed := s.observed.(queueDepth := Some(n))))
    ensures RuntimeScore(s.(observed := s.observed.(queueDepth := None)))
            >= RuntimeScore(s.(observed := s.observed.(queueDepth := Some(n))))
  {
  }

  /** By how much, for a loaded service of which one more thing is known. */
  lemma RuntimeAmounts(s: Service, latency: real, rate: real, queue: nat)
    requires s.AnyLoaded() && s.state.availability == Available && s.observed == UNSEEN
    ensures RuntimeScore(s) == 0.35
    ensures RuntimeScore(s.(state := s.state.(availability := Busy))) == 0.25
    ensures RuntimeScore(s.(observed := UNSEEN.(p50LatencyMs := Some(latency))))
            == (if latency <= 1500.0 then 0.65 else if latency <= 4000.0 then 0.53 else 0.40)
    ensures RuntimeScore(s.(observed := UNSEEN.(tokensPerSec := Some(rate))))
            == (if rate >= 20.0 then 0.55 else if rate >= 8.0 then 0.45 else 0.35)
    ensures RuntimeScore(s.(observed := UNSEEN.(queueDepth := Some(queue))))
            == (if queue <= 5 then 0.35 - 0.03 * queue as real else 0.20)
  {
    var reported := [s.(state := s.state.(availability := Busy)),
                     s.(observed := UNSEEN.(p50LatencyMs := Some(latency))),
                     s.(observed := UNSEEN.(tokensPerSec := Some(rate))),
                     s.(observed := UNSEEN.(queueDepth := Some(queue)))];
    forall i | 0 <= i < 4 ensures reported[i].AnyLoaded() {
      assert reported[i].assets == s.assets;
    }
  }

  // ---- Benchmarks ----------------------------------------------------------------------------

  /** Correctness is the best value reported, each brought into [0, 1]. */
  lemma {:induction false} CorrectnessMeaning(values: seq<real>)
    ensures values == [] ==> BestCorrectness(values) == 0.0
    ensures forall v | v in values :: v <= 1.0 ==> BestCorrectness(values) >= v
    ensures forall v | v in values :: v > 1.0 ==> BestCorrectness(values) == 1.0
    ensures values != [] ==> BestCorrectness(values) == 0.0 || exists v :: v in values && BestCorrectness(values) == Clamp(v)
  {
    CorrectnessRange(values);
    if values != [] {
      CorrectnessMeaning(values[1..]);
      assert values == [values[0]] + values[1..];
    }
  }

  /** Speed counts up to a half for 40 tokens a second and more, and a half to a
      tenth for the time to the first token. */
  lemma SpeedMeaning(rate: real, wait: real)
    requires rate >= 0.0
    ensures Speed(Results(None, None, [])) == 0.0
    ensures Speed(Results(Some(rate), None, [])) == (if rate >= 40.0 then 0.5 else rate / 80.0)
    ensures Speed(Results(None, Some(wait), []))
            == (if wait <= 500.0 then 0.5 else if wait <= 1000.0 then 0.4 else if wait <= 2500.0 then 0.25 else 0.1)
    ensures rate >= 40.0 && wait <= 500.0 ==> Speed(Results(Some(rate), Some(wait), [])) == 1.0
  {
  }

  /** Quality is speed alone, or two thirds correctness: 0.65 to 0.35. */
  lemma QualityMeaning(value: real, rate: real)
    requires 0.0 <= value <= 1.0 && rate >= 40.0
    ensures Quality(Results(Some(rate), None, [])) == 0.5
    ensures Quality(Results(None, None, [value])) == 0.65 * value
    ensures Quality(Results(Some(rate), None, [0.0])) == 0.175
  {
    SingleCorrectness(value);
    SingleCorrectness(0.0);
  }

  lemma SingleCorrectness(value: real)
    requires 0.0 <= value <= 1.0
    ensures BestCorrectness([value]) == value
  {
    assert [value][1..] == [] && BestCorrectness([]) == 0.0;
  }

  /** Of one matching sample the overlap counts 0.55 and the quality 0.45; a
      workload asked for by name overlaps fully; a sample that overlaps in
      nothing asked for does not count at all. */
  lemma SampleCounts(query: Query, sample: Sample)
    requires 0.0 <= Quality(sample.results) <= 1.0
    ensures var score := BenchmarkScore(query, [sample]);
            var overlap := if sample.workload in query.workloads then 1.0 else Overlap(query.queryTokens, sample.tokens);
            if overlap == 0.0 && query.queryTokens != {} then score == 0.0
            else score == 0.55 * overlap + 0.45 * Quality(sample.results)
  {
    OverlapRange(query.queryTokens, sample.tokens);
    assert [sample][..0] == [];
    assert BestOverlap(query, []) == 0.0 && BestQuality(query, []) == 0.0;
  }

  /** A sample of another service changes nothing. */
  lemma OthersDoNotCount(query: Query, table: Samples, sample: Sample, s: Service)
    requires KeyedSamples(table) && sample.benchmarkId !in table
    requires s.serviceId != "" && sample.serviceId != s.serviceId
    ensures BenchmarkOf(query, table[sample.benchmarkId := sample], Some(s)) == BenchmarkOf(query, table, Some(s))
  {
    var more := table[sample.benchmarkId := sample];
    assert SamplesOf(more, s.serviceId) == SamplesOf(table, s.serviceId) by {
      forall x ensures x in SamplesOf(more, s.serviceId) <==> x in SamplesOf(table, s.serviceId) {
        if x in SamplesOf(table, s.serviceId) {
          assert x.benchmarkId in table && more[x.benchmarkId] == x;
        }
      }
    }
  }

  // ---- Weights --------------------------------------------------------------------------------

  /** What a role's score owes to each signal when the others are silent. */
  lemma RoleWeights(query: Query, texts: Texts, role: Role, s: Service, b: real)
    requires 0.0 <= b <= 1.0
    ensures RoleScore(query, texts, role, None, 0.0) == Round4(0.25 * Overlap(query.taskTokens, texts.ofRole(role)))
    ensures Overlap(query.taskTokens, texts.ofRole(role)) == 0.0 ==>
              && RoleScore(query, texts, role, None, b) == Round4(0.25 * b)
              && (RuntimeScore(s) == 0.0 ==>
                    RoleScore(query, texts, role, Some(s), 0.0)
                    == if FamilyNamed(role, s) then (if GuardrailMatch(s, role.routing.guardrail) then 0.25 else 0.12)
                       else if GuardrailMatch(s, role.routing.guardrail) then 0.13 else 0.0)
              && (!FamilyNamed(role, s) && !GuardrailMatch(s, role.routing.guardrail) && RuntimeScore(s) <= 1.0 ==>
                    RoleScore(query, texts, role, Some(s), 0.0) == Round4(0.25 * RuntimeScore(s)))
  {
    OverlapRange(query.taskTokens, texts.ofRole(role));
    Hundredths();
  }

  lemma Hundredths()
    ensures Round4(0.25) == 0.25 && Round4(0.12) == 0.12 && Round4(0.13) == 0.13 && Round4(0.0) == 0.0
  {
    assert (2500.0).Floor == 2500 && (1200.0).Floor == 1200 && (1300.0).Floor == 1300 && (0.0).Floor == 0;
    assert 0.25 * 10000.0 == 2500.0 && 0.12 * 10000.0 == 1200.0 && 0.13 * 10000.0 == 1300.0 && 0.0 * 10000.0 == 0.0;
  }

  lemma ServiceWeights(query: Query, texts: Texts, s: Service, b: real)
    requires 0.0 <= b <= 1.0
    ensures var text := Overlap(query.taskTokens, texts.ofService(s));
            && (RuntimeScore(s) == 0.0 ==> ServiceScore(query, texts, s, 0.0) == Round4(0.20 * text))
            && (text == 0.0 && RuntimeScore(s) == 0.0 ==> ServiceScore(query, texts, s, b) == Round4(0.35 * b))
            && (text == 0.0 && RuntimeScore(s) <= 1.0 ==> ServiceScore(query, texts, s, 0.0) == Round4(0.45 * RuntimeScore(s)))
  {
    OverlapRange(query.taskTokens, texts.ofService(s));
  }

  // ---- Candidates ------------------------------------------------------------------------------

  /** Candidates are the roles of the kind and modality asked for, and, if asked
      for, the services of that kind that may be used directly. */
  lemma CandidatesAre(request: Request, snap: Snapshot, counters: Counters, table: Samples, roles: seq<Role>, isRole: bool, id: string)
    requires KeyedSamples(table)
    ensures (exists c :: c in AllCandidates(request, snap, counters, table, roles) && c.isRole == isRole && c.id == id)
            <==>
            if isRole then
              exists r :: r in roles && r.roleId == id
                && (request.kind == None || request.kind == Some(r.operation))
                && (request.modality == None || request.modality == Some(r.modality))
            else
              request.includeDirect &&
              exists s :: s in snap.services && s.serviceId == id
                && (request.kind == None || request.kind == Some(s.kind)) && AllowedForDirect(snap, s)
  {
    RoleCandidatesAre(request, snap, counters, table, roles, id);
    ServiceCandidatesAre(request, snap, table, snap.services, id);
  }

  lemma {:induction false} RoleCandidatesAre(request: Request, snap: Snapshot, counters: Counters, table: Samples, roles: seq<Role>, id: string)
    requires KeyedSamples(table)
    ensures var scored := ScoredRoles(request, snap, counters, table, roles).0;
            && (forall c | c in scored :: c.isRole)
            && ((exists c :: c in scored && c.id == id) <==> exists r :: r in roles && r.roleId == id && WantedRole(request, r))
    decreases |roles|
  {
    if roles != [] {
      hide RoleScore, BenchmarkOf, ResolveRoute;
      var front, last := roles[..|roles| - 1], roles[|roles| - 1];
      RoleCandidatesAre(request, snap, counters, table, front, id);
      assert roles == front + [last];
      var before, scored := ScoredRoles(request, snap, counters, table, front).0, ScoredRoles(request, snap, counters, table, roles).0;
      assert WantedRole(request, last) ==> |scored| == |before| + 1 && scored[|before|].id == last.roleId && scored[..|before|] == before;
      assert !WantedRole(request, last) ==> scored == before;
      assert WantedRole(request, last) ==> scored[|before|] in scored;
    }
  }

  lemma {:induction false} ServiceCandidatesAre(request: Request, snap: Snapshot, table: Samples, services: seq<Service>, id: string)
    requires KeyedSamples(table)
    ensures var scored := ScoredServices(request, snap, table, services);
            && (forall c | c in scored :: !c.isRole)
            && ((exists c :: c in scored && c.id == id) <==> exists s :: s in services && s.serviceId == id && WantedService(request, snap, s))
    decreases |services|
  {
    if services != [] {
      hide ServiceScore, BenchmarkOf, AllowedForDirect;
      var front, last := services[..|services| - 1], services[|services| - 1];
      ServiceCandidatesAre(request, snap, table, front, id);
      assert services == front + [last];
      var before, scored := ScoredServices(request, snap, table, front), ScoredServices(request, snap, table, services);
      assert WantedService(request, snap, last) ==> |scored| == |before| + 1 && scored[|before|].id == last.serviceId && scored[..|before|] == before;
      assert WantedService(request, snap, last) ==> scored[|before|] in scored;
    }
  }

  /** A service's candidate carries the score of that very service, a role's the
      score with the service the role resolves to at that point of the listing. */
  lemma {:induction false} RoleCandidateScores(request: Request, snap: Snapshot, counters: Counters, table: Samples, roles: seq<Role>, c: Candidate)
    requires KeyedSamples(table) && c in ScoredRoles(request, snap, counters, table, roles).0
    ensures exists r, at :: r in roles && r.roleId == c.id
              && var s := Served(ResolveRoute(snap, at, r.roleId, Some(r.operation)).resolution);
                 c.score == RoleScore(request.query, request.texts, r, s, BenchmarkOf(request.query, table, s))
    decreases |roles|
  {
    hide RoleScore, BenchmarkOf, ResolveRoute;
    var front, last := roles[..|roles| - 1], roles[|roles| - 1];
    var (before, mid) := ScoredRoles(request, snap, counters, table, front);
    assert roles == front + [last];
    if c in before {
      RoleCandidateScores(request, snap, counters, table, front, c);
      var r, at :| r in front && r.roleId == c.id
        && var s := Served(ResolveRoute(snap, at, r.roleId, Some(r.operation)).resolution);
           c.score == RoleScore(request.query, request.texts, r, s, BenchmarkOf(request.query, table, s));
      assert r in roles;
    } else {
      var s := Served(ResolveRoute(snap, mid, last.roleId, Some(last.operation)).resolution);
      assert c.score == RoleScore(request.query, request.texts, last, s, BenchmarkOf(request.query, table, s));
      assert last in roles;
    }
  }

  lemma {:induction false} ServiceCandidateScores(request: Request, snap: Snapshot, table: Samples, services: seq<Service>, c: Candidate)
    requires KeyedSamples(table) && c in ScoredServices(request, snap, table, services)
    ensures exists s :: s in services && s.serviceId == c.id
              && c.score == ServiceScore(request.query, request.texts, s, BenchmarkOf(request.query, table, Some(s)))
    decreases |services|
  {
    hide ServiceScore, BenchmarkOf, AllowedForDirect;
    var front, last := services[..|services| - 1], services[|services| - 1];
    assert services == front + [last];
    if c in ScoredServices(request, snap, table, front) {
      ServiceCandidateScores(request, snap, table, front, c);
    }
  }
}
