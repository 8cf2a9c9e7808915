/** Ranking routes for a task: runtime and benchmark signals, candidate scores,
    and the sorted list of the best. */
module Matching {
  import opened Common
  import opened Entities
  import opened Selection
  import opened Routing
  import opened Ordering
  import Registry
  import Text

  function MinR(a: real, b: real): real { if a < b then a else b }
  function MaxR(a: real, b: real): real { if a < b then b else a }
  function Clamp(x: real): real { MaxR(0.0, MinR(1.0, x)) }

  // ---- Benchmark samples -------------------------------------------------------------

  datatype Results = Results(
    tokensPerSec: Option<real>,
    ttftMs: Option<real>,
    correctness: seq<real>)   // quality score, pass rate and the other correctness signals present

  datatype Sample = Sample(benchmarkId: string, serviceId: string, workload: string, tokens: set<string>,
                           observedAt: real, results: Results)

  function BestCorrectness(values: seq<real>): real {
    if values == [] then 0.0 else MaxR(Clamp(values[0]), BestCorrectness(values[1..]))
  }

  function Speed(results: Results): real {
    var throughput := if results.tokensPerSec.Some? then MinR(0.5, results.tokensPerSec.value / 80.0) else 0.0;
    var latency :=
      if results.ttftMs.None? then 0.0
      else if results.ttftMs.value <= 500.0 then 0.50
      else if results.ttftMs.value <= 1000.0 then 0.40
      else if results.ttftMs.value <= 2500.0 then 0.25
      else 0.10;
    MinR(1.0, throughput + latency)
  }

  function Quality(results: Results): real {
    if results.correctness == [] then Speed(results)
    else 0.65 * BestCorrectness(results.correctness) + 0.35 * Speed(results)
  }

  /** What a client asks for: the tokens of tasks and workloads, and the workloads themselves. */
  datatype Query = Query(taskTokens: set<string>, queryTokens: set<string>, workloads: set<string>)

  function Overlap(query: set<string>, candidate: set<string>): real {
    if query == {} || candidate == {} then 0.0
    else MinR(1.0, |query * candidate| as real / |query| as real)
  }

  function SampleOverlap(query: Query, sample: Sample): real {
    var overlap := Overlap(query.queryTokens, sample.tokens);
    if sample.workload in query.workloads then MaxR(overlap, 1.0) else overlap
  }

  predicate Matches(query: Query, sample: Sample) {
    SampleOverlap(query, sample) > 0.0 || query.queryTokens == {}
  }

  function BestOverlap(query: Query, samples: seq<Sample>): real {
    if samples == [] then 0.0
    else
      var before, last := BestOverlap(query, samples[..|samples| - 1]), samples[|samples| - 1];
      if Matches(query, last) then MaxR(before, SampleOverlap(query, last)) else before
  }

  function BestQuality(query: Query, samples: seq<Sample>): real {
    if samples == [] then 0.0
    else
      var before, last := BestQuality(query, samples[..|samples| - 1]), samples[|samples| - 1];
      if Matches(query, last) then MaxR(before, Quality(last.results)) else before
  }

  function BenchmarkScore(query: Query, samples: seq<Sample>): real {
    MinR(1.0, 0.55 * BestOverlap(query, samples) + 0.45 * BestQuality(query, samples))
  }

  /** The loop over a service's samples with its running maxima; without a
      match the score is zero. */
  method BenchmarkSignals(query: Query, samples: seq<Sample>) returns (score: real)
    ensures score == BenchmarkScore(query, samples)
  {
    var bestOverlap, bestQuality, matched := 0.0, 0.0, 0;
    for i := 0 to |samples|
      invariant bestOverlap == BestOverlap(query, samples[..i])
      invariant bestQuality == BestQuality(query, samples[..i])
      invariant matched == 0 ==> bestOverlap == 0.0 && bestQuality == 0.0
      invariant matched >= 0
    {
      assert samples[..i + 1][..i] == samples[..i];
      var overlap := if query.queryTokens == {} then 0.0 else Overlap(query.queryTokens, samples[i].tokens);
      if samples[i].workload in query.workloads {
        overlap := MaxR(overlap, 1.0);
      }
      var quality := Quality(samples[i].results);
      if overlap > 0.0 || query.queryTokens == {} {
        matched := matched + 1;
        bestOverlap := MaxR(bestOverlap, overlap);
        bestQuality := MaxR(bestQuality, quality);
      }
    }
    assert samples[..|samples|] == samples;
    score := MinR(1.0, if matched > 0 then 0.55 * bestOverlap + 0.45 * bestQuality else 0.0);
  }

  // ---- The samples of a service -------------------------------------------------------

  type Samples = map<string, Sample>

  function SampleKey(s: Sample): Key { Key(-s.observedAt, s.benchmarkId, "") }

  ghost predicate KeyedSamples(table: Samples) {
    forall id | id in table :: table[id].benchmarkId == id
  }

  /** An empty service id does not filter. */
  ghost function SamplesOf(table: Samples, serviceId: string): set<Sample> {
    set id | id in table && (serviceId == "" || table[id].serviceId == serviceId) :: table[id]
  }

  /** Newest first. */
  ghost function ListSamples(table: Samples, serviceId: string): seq<Sample>
    requires KeyedSamples(table)
  {
    Ordered(SampleKey, SamplesOf(table, serviceId))
  }

  // ---- Maxima do not depend on order ---------------------------------------------------

  lemma {:induction false} BestIsUpperBound(query: Query, samples: seq<Sample>)
    ensures BestOverlap(query, samples) >= 0.0 && BestQuality(query, samples) >= 0.0
    ensures forall s | s in samples && Matches(query, s) ::
              SampleOverlap(query, s) <= BestOverlap(query, samples) && Quality(s.results) <= BestQuality(query, samples)
  {
    if samples != [] {
      var front, last := samples[..|samples| - 1], samples[|samples| - 1];
      BestIsUpperBound(query, front);
      assert forall s | s in samples :: s == last || s in front by {
        assert samples == front + [last];
      }
    }
  }

  lemma {:induction false} BestIsLeast(query: Query, samples: seq<Sample>, overlap: real, quality: real)
    requires overlap >= 0.0 && quality >= 0.0
    requires forall s | s in samples && Matches(query, s) :: SampleOverlap(query, s) <= overlap && Quality(s.results) <= quality
    ensures BestOverlap(query, samples) <= overlap && BestQuality(query, samples) <= quality
  {
    if samples != [] {
      BestIsLeast(query, samples[..|samples| - 1], overlap, quality);
      assert samples[|samples| - 1] in samples;
    }
  }

  /** More samples never score less, in whatever order they are read. */
  lemma MoreSamplesNeverScoreLess(query: Query, fewer: seq<Sample>, more: seq<Sample>)
    requires forall s | s in fewer :: s in more
    ensures BenchmarkScore(query, fewer) <= BenchmarkScore(query, more)
  {
    BestIsUpperBound(query, more);
    BestIsLeast(query, fewer, BestOverlap(query, more), BestQuality(query, more));
  }

  lemma {:induction false} CorrectnessRange(values: seq<real>)
    ensures 0.0 <= BestCorrectness(values) <= 1.0
  {
    if values != [] {
      CorrectnessRange(values[1..]);
    }
  }

  lemma OverlapRange(query: set<string>, candidate: set<string>)
    ensures 0.0 <= Overlap(query, candidate) <= 1.0
  {
    if query != {} {
      Fraction(|query * candidate|, |query|);
    }
  }

  lemma Fraction(a: nat, b: nat)
    requires b > 0
    ensures a as real / b as real >= 0.0
  {
  }

  lemma BenchmarkRange(query: Query, samples: seq<Sample>)
    ensures 0.0 <= BenchmarkScore(query, samples) <= 1.0
  {
    BestIsUpperBound(query, samples);
  }

  // ---- Candidate scores ------------------------------------------------------------------

  function RuntimeScore(s: Service): real {
    var o := s.observed;
    var busy := if s.state.availability.Busy? then -0.10 else 0.0;
    var loaded := if s.AnyLoaded() then 0.35 else 0.0;
    var latency :=
      if o.p50LatencyMs.None? then 0.0
      else if o.p50LatencyMs.value <= 1500.0 then 0.30
      else if o.p50LatencyMs.value <= 4000.0 then 0.18
      else 0.05;
    var throughput :=
      if o.tokensPerSec.None? then 0.0
      else if o.tokensPerSec.value >= 20.0 then 0.20
      else if o.tokensPerSec.value >= 8.0 then 0.10
      else 0.0;
    var queue := if o.queueDepth.Some? && o.queueDepth.value > 0 then MinR(0.15, 0.03 * (o.queueDepth.value as real)) else 0.0;
    Clamp(busy + loaded + latency + throughput - queue)
  }

  /** Rounded to four places, half to even. */
  function Round4(x: real): real {
    var scaled := x * 10000.0;
    var whole := scaled.Floor;
    var part := scaled - whole as real;
    var rounded := if part > 0.5 || (part == 0.5 && whole % 2 == 1) then whole + 1 else whole;
    rounded as real / 10000.0
  }

  /** The tokens of the descriptive texts of roles and services. */
  datatype Texts = Texts(ofRole: Role -> set<string>, ofService: Service -> set<string>)

  predicate FamilyNamed(role: Role, s: Service) {
    FamilyIndex(s, role.routing.preferredFamilies) < |role.routing.preferredFamilies|
  }

  function RoleScore(query: Query, texts: Texts, role: Role, s: Option<Service>, benchmark: real): real {
    var text := Overlap(query.taskTokens, texts.ofRole(role));
    var family := if s.Some? && FamilyNamed(role, s.value) then 1.0 else 0.0;
    var guardrail := if s.Some? && GuardrailMatch(s.value, role.routing.guardrail) then 1.0 else 0.0;
    var runtime := if s.Some? then RuntimeScore(s.value) else 0.0;
    Round4(MinR(1.0, 0.25 * text + 0.12 * family + 0.13 * guardrail + 0.25 * runtime + 0.25 * benchmark))
  }

  function ServiceScore(query: Query, texts: Texts, s: Service, benchmark: real): real {
    Round4(MinR(1.0, 0.20 * Overlap(query.taskTokens, texts.ofService(s)) + 0.45 * RuntimeScore(s) + 0.35 * benchmark))
  }

  ghost function BenchmarkOf(query: Query, table: Samples, s: Option<Service>): real
    requires KeyedSamples(table)
  {
    if s.None? then 0.0 else BenchmarkScore(query, ListSamples(table, s.value.serviceId))
  }

  lemma Round4Monotone(a: real, b: real)
    requires a <= b
    ensures Round4(a) <= Round4(b)
  {
    var x, y := a * 10000.0, b * 10000.0;
    assert x <= y;
    assert x.Floor <= y.Floor;
  }

  lemma Round4Fixed()
    ensures Round4(0.0) == 0.0 && Round4(1.0) == 1.0
  {
    assert (10000.0).Floor == 10000;
  }

  /** Every candidate's score lies between 0 and 1. */
  lemma ScoresInRange(query: Query, texts: Texts, table: Samples, role: Role, r: Option<Service>, s: Service)
    requires KeyedSamples(table)
    ensures 0.0 <= RoleScore(query, texts, role, r, BenchmarkOf(query, table, r)) <= 1.0
    ensures 0.0 <= ServiceScore(query, texts, s, BenchmarkOf(query, table, Some(s))) <= 1.0
  {
    OverlapRange(query.taskTokens, texts.ofRole(role));
    OverlapRange(query.taskTokens, texts.ofService(s));
    if r.Some? { BenchmarkRange(query, ListSamples(table, r.value.serviceId)); }
    BenchmarkRange(query, ListSamples(table, s.serviceId));
    Round4Fixed();
    RoundedRange(MinR(1.0, 0.20 * Overlap(query.taskTokens, texts.ofService(s)) + 0.45 * RuntimeScore(s)
                           + 0.35 * BenchmarkOf(query, table, Some(s))));
    var family := if r.Some? && FamilyNamed(role, r.value) then 1.0 else 0.0;
    var guardrail := if r.Some? && GuardrailMatch(r.value, role.routing.guardrail) then 1.0 else 0.0;
    var runtime := if r.Some? then RuntimeScore(r.value) else 0.0;
    RoundedRange(MinR(1.0, 0.25 * Overlap(query.taskTokens, texts.ofRole(role)) + 0.12 * family + 0.13 * guardrail
                           + 0.25 * runtime + 0.25 * BenchmarkOf(query, table, r)));
  }

  lemma RoundedRange(x: real)
    requires 0.0 <= x <= 1.0
    ensures 0.0 <= Round4(x) <= 1.0
  {
    Round4Fixed();
    Round4Monotone(0.0, x);
    Round4Monotone(x, 1.0);
  }

  /** Ingesting a sample under a new benchmark id never lowers any candidate's score. */
  lemma IngestNeverLowersScores(query: Query, texts: Texts, table: Samples, sample: Sample,
                                role: Role, r: Option<Service>, s: Service)
    requires KeyedSamples(table) && sample.benchmarkId !in table
    ensures var more := table[sample.benchmarkId := sample];
            && RoleScore(query, texts, role, r, BenchmarkOf(query, table, r))
               <= RoleScore(query, texts, role, r, BenchmarkOf(query, more, r))
            && ServiceScore(query, texts, s, BenchmarkOf(query, table, Some(s)))
               <= ServiceScore(query, texts, s, BenchmarkOf(query, more, Some(s)))
  {
    var more := table[sample.benchmarkId := sample];
    BenchmarkGrows(query, table, sample, r);
    BenchmarkGrows(query, table, sample, Some(s));
    RoleScoreMonotone(query, texts, role, r, BenchmarkOf(query, table, r), BenchmarkOf(query, more, r));
    ServiceScoreMonotone(query, texts, s, BenchmarkOf(query, table, Some(s)), BenchmarkOf(query, more, Some(s)));
  }

  lemma BenchmarkGrows(query: Query, table: Samples, sample: Sample, s: Option<Service>)
    requires KeyedSamples(table) && sample.benchmarkId !in table
    ensures BenchmarkOf(query, table, s) <= BenchmarkOf(query, table[sample.benchmarkId := sample], s)
  {
    if s.Some? {
      var more := table[sample.benchmarkId := sample];
      assert forall x | x in SamplesOf(table, s.value.serviceId) :: x in SamplesOf(more, s.value.serviceId) by {
        forall x | x in SamplesOf(table, s.value.serviceId) ensures x in SamplesOf(more, s.value.serviceId) {
          assert more[x.benchmarkId] == x;
        }
      }
      MoreSamplesNeverScoreLess(query, ListSamples(table, s.value.serviceId), ListSamples(more, s.value.serviceId));
    }
  }

  lemma RoleScoreMonotone(query: Query, texts: Texts, role: Role, s: Option<Service>, a: real, b: real)
    requires a <= b
    ensures RoleScore(query, texts, role, s, a) <= RoleScore(query, texts, role, s, b)
  {
    var text := Overlap(query.taskTokens, texts.ofRole(role));
    var family := if s.Some? && FamilyNamed(role, s.value) then 1.0 else 0.0;
    var guardrail := if s.Some? && GuardrailMatch(s.value, role.routing.guardrail) then 1.0 else 0.0;
    var runtime := if s.Some? then RuntimeScore(s.value) else 0.0;
    Round4Monotone(MinR(1.0, 0.25 * text + 0.12 * family + 0.13 * guardrail + 0.25 * runtime + 0.25 * a),
                   MinR(1.0, 0.25 * text + 0.12 * family + 0.13 * guardrail + 0.25 * runtime + 0.25 * b));
  }

  lemma ServiceScoreMonotone(query: Query, texts: Texts, s: Service, a: real, b: real)
    requires a <= b
    ensures ServiceScore(query, texts, s, a) <= ServiceScore(query, texts, s, b)
  {
    var rest := 0.20 * Overlap(query.taskTokens, texts.ofService(s)) + 0.45 * RuntimeScore(s);
    Round4Monotone(MinR(1.0, rest + 0.35 * a), MinR(1.0, rest + 0.35 * b));
  }

  // ---- The ranking -------------------------------------------------------------------------

  datatype Candidate = Candidate(isRole: bool, id: string, score: real)

  /** Higher score first, roles before services, then by id. */
  function CandidateKey(c: Candidate): Key {
    Key(-c.score, if c.isRole then "" else "service", c.id)
  }

  /** A higher score comes first; of equal scores a role comes before a service;
      and of equals in both the smaller id. */
  predicate Ahead(a: Candidate, b: Candidate) {
    || a.score > b.score
    || (a.score == b.score && a.isRole && !b.isRole)
    || (a.score == b.score && a.isRole == b.isRole && Text.Less(a.id, b.id))
  }

  /** As many as asked for, at least one, as far as there are that many; each
      ahead of those listed after it and of those not listed. */
  ghost predicate BestFirst(candidates: set<Candidate>, limit: int, ranked: seq<Candidate>) {
    && |ranked| <= |candidates| && (|ranked| < |candidates| ==> |ranked| == (if limit < 1 then 1 else limit))
    && |ranked| <= (if limit < 1 then 1 else limit)
    && (forall c | c in ranked :: c in candidates)
    && (forall i, j | 0 <= i < j < |ranked| :: Ahead(ranked[i], ranked[j]))
    && (forall c, d | c in ranked && d in candidates && d !in ranked :: Ahead(c, d))
  }

  lemma KeyMeansAhead(a: Candidate, b: Candidate)
    requires KeyLess(CandidateKey(a), CandidateKey(b))
    ensures Ahead(a, b)
  {
    assert "service" != "";
    Text.LessAsymmetric("", "service");
    Text.LessIrreflexive(a.id);
  }

  lemma RankingMeaning(candidates: set<Candidate>, limit: int, ranked: seq<Candidate>)
    requires IsRanking(candidates, limit, ranked)
    ensures BestFirst(candidates, limit, ranked)
  {
    forall i, j | 0 <= i < j < |ranked| ensures Ahead(ranked[i], ranked[j]) {
      KeyMeansAhead(ranked[i], ranked[j]);
    }
    forall c, d | c in ranked && d in candidates && d !in ranked ensures Ahead(c, d) {
      KeyMeansAhead(c, d);
    }
  }

  /** No two candidates are of the same type and id. */
  ghost predicate DistinctCandidates(candidates: set<Candidate>) {
    forall c, d | c in candidates && d in candidates && c.isRole == d.isRole && c.id == d.id :: c == d
  }

  lemma CandidateKeysDistinct(candidates: set<Candidate>)
    requires DistinctCandidates(candidates)
    ensures DistinctKeys(CandidateKey, candidates)
  {
    assert "service" != "";
  }

  /** The best `limit` candidates (at least one place), best first. */
  method Rank(candidates: set<Candidate>, limit: int) returns (ranked: seq<Candidate>)
    requires DistinctCandidates(candidates)
    ensures IsRanking(candidates, limit, ranked) && BestFirst(candidates, limit, ranked)
  {
    CandidateKeysDistinct(candidates);
    var all := Sort(CandidateKey, candidates);
    SortedSize(all, candidates);
    var top := MaxInt(1, limit);
    ranked := if |all| < top then all else all[..top];
    assert ranked == all[..|ranked|];
    TopComesFirst(all, |ranked|);
    RankingMeaning(candidates, limit, ranked);
  }

  lemma TopComesFirst(all: seq<Candidate>, top: nat)
    requires Sorted(CandidateKey, all) && top <= |all|
    ensures Sorted(CandidateKey, all[..top])
    ensures forall c, d | c in all[..top] && d in all && d !in all[..top] :: KeyLess(CandidateKey(c), CandidateKey(d))
  {
    forall c, d | c in all[..top] && d in all && d !in all[..top] ensures KeyLess(CandidateKey(c), CandidateKey(d)) {
      var i :| 0 <= i < top && all[i] == c;
      var j :| 0 <= j < |all| && all[j] == d;
    }
  }

  function MaxInt(a: int, b: int): int { if a < b then b else a }

  lemma {:induction false} SortedSize(all: seq<Candidate>, candidates: set<Candidate>)
    requires Sorted(CandidateKey, all) && forall c :: c in all <==> c in candidates
    ensures |all| == |candidates|
    decreases |all|
  {
    if all == [] {
      assert candidates == {};
    } else {
      var rest := all[1..];
      forall c ensures c in rest <==> c in candidates - {all[0]} {
        TailMembers(CandidateKey, all, c);
      }
      SortedSize(rest, candidates - {all[0]});
    }
  }

  /** The ranking is determined by the candidates alone, not by the order in
      which the tables list them. */
  lemma RankingIsDetermined(candidates: set<Candidate>, limit: int, a: seq<Candidate>, b: seq<Candidate>)
    requires IsRanking(candidates, limit, a) && IsRanking(candidates, limit, b)
    ensures a == b
  {
    forall c ensures c in a <==> c in b {
      MemberOfBoth(candidates, limit, a, b, c);
      MemberOfBoth(candidates, limit, b, a, c);
    }
    SortedUnique(CandidateKey, a, b);
  }

  ghost predicate IsRanking(candidates: set<Candidate>, limit: int, ranked: seq<Candidate>) {
    && |ranked| == (if |candidates| < MaxInt(1, limit) then |candidates| else MaxInt(1, limit))
    && Sorted(CandidateKey, ranked)
    && (forall c | c in ranked :: c in candidates)
    && (forall c, d | c in ranked && d in candidates && d !in ranked :: KeyLess(CandidateKey(c), CandidateKey(d)))
  }

  lemma MemberOfBoth(candidates: set<Candidate>, limit: int, a: seq<Candidate>, b: seq<Candidate>, c: Candidate)
    requires IsRanking(candidates, limit, a) && IsRanking(candidates, limit, b)
    ensures c in a ==> c in b
  {
    if c in a && c !in b {
      // b is as long as a and lacks c, so it has some d that a lacks.
      var d := Missing(a, b, c);
      KeyOrder(CandidateKey(c), CandidateKey(d));
    }
  }

  lemma Missing(a: seq<Candidate>, b: seq<Candidate>, c: Candidate) returns (d: Candidate)
    requires Sorted(CandidateKey, a) && Sorted(CandidateKey, b) && |a| == |b|
    requires c in a && c !in b
    ensures d in b && d !in a
  {
    var x, y := set e | e in a, set e | e in b;
    SortedSize(a, x);
    SortedSize(b, y);
    if y <= x {
      assert y <= x - {c};
      SubsetSize(y, x - {c});
    }
    d :| d in y && d !in x;
  }

  // ---- The whole request ---------------------------------------------------------------------

  datatype Request = Request(kind: Option<Kind>, modality: Option<string>, includeDirect: bool, limit: int,
                             query: Query, texts: Texts)

  predicate WantedRole(request: Request, role: Role) {
    (request.kind.Some? ==> role.operation == request.kind.value) &&
    (request.modality.Some? ==> role.modality == request.modality.value)
  }

  predicate WantedService(request: Request, snap: Snapshot, s: Service) {
    (request.kind.Some? ==> s.kind == request.kind.value) && AllowedForDirect(snap, s)
  }

  /** The role candidates, each scored with the service the role resolves to in turn. */
  ghost function ScoredRoles(request: Request, snap: Snapshot, counters: Counters, table: Samples, roles: seq<Role>): (seq<Candidate>, Counters)
    requires KeyedSamples(table)
  {
    if roles == [] then ([], counters)
    else
      var (before, mid) := ScoredRoles(request, snap, counters, table, roles[..|roles| - 1]);
      var role := roles[|roles| - 1];
      if !WantedRole(request, role) then (before, mid)
      else
        var out := ResolveRoute(snap, mid, role.roleId, Some(role.operation));
        var s := Served(out.resolution);
        (before + [Candidate(true, role.roleId, RoleScore(request.query, request.texts, role, s, BenchmarkOf(request.query, table, s)))],
         out.counters)
  }

  ghost function ScoredServices(request: Request, snap: Snapshot, table: Samples, services: seq<Service>): seq<Candidate>
    requires KeyedSamples(table)
  {
    if services == [] then []
    else
      var s := services[|services| - 1];
      ScoredServices(request, snap, table, services[..|services| - 1])
      + if WantedService(request, snap, s)
        then [Candidate(false, s.serviceId, ServiceScore(request.query, request.texts, s, BenchmarkOf(request.query, table, Some(s))))]
        else []
  }

  ghost function AllCandidates(request: Request, snap: Snapshot, counters: Counters, table: Samples, roles: seq<Role>): set<Candidate>
    requires KeyedSamples(table)
  {
    var all := ScoredRoles(request, snap, counters, table, roles).0
               + (if request.includeDirect then ScoredServices(request, snap, table, snap.services) else []);
    set c | c in all
  }

  method ScoreBenchmarks(query: Query, table: Samples, s: Option<Service>) returns (score: real)
    requires KeyedSamples(table)
    ensures score == BenchmarkOf(query, table, s)
  {
    if s.None? {
      return 0.0;
    }
    var mine := set id | id in table && (s.value.serviceId == "" || table[id].serviceId == s.value.serviceId) :: table[id];
    var samples := Sort(SampleKey, mine);
    score := BenchmarkSignals(query, samples);
  }

  method ScoreRoles(registry: Registry.Registry, request: Request, snap: Snapshot, table: Samples, roles: seq<Role>)
    returns (candidates: seq<Candidate>)
    requires registry.Valid() && snap == registry.Snap() && KeyedSamples(table)
    modifies registry`rrCounters
    ensures (candidates, registry.rrCounters) == ScoredRoles(request, snap, old(registry.rrCounters), table, roles)
  {
    candidates := [];
    for i := 0 to |roles|
      invariant (candidates, registry.rrCounters) == ScoredRoles(request, snap, old(registry.rrCounters), table, roles[..i])
    {
      var role := roles[i];
      assert roles[..i + 1][..i] == roles[..i];
      if WantedRole(request, role) {
        var resolved := registry.ResolveRoute(role.roleId, Some(role.operation), null);
        var s := Served(resolved);
        var benchmark := ScoreBenchmarks(request.query, table, s);
        candidates := candidates + [Candidate(true, role.roleId, RoleScore(request.query, request.texts, role, s, benchmark))];
      }
    }
    assert roles[..|roles|] == roles;
  }

  method ScoreServices(request: Request, snap: Snapshot, table: Samples) returns (candidates: seq<Candidate>)
    requires KeyedSamples(table)
    ensures candidates == ScoredServices(request, snap, table, snap.services)
  {
    candidates := [];
    for i := 0 to |snap.services|
      invariant candidates == ScoredServices(request, snap, table, snap.services[..i])
    {
      var s := snap.services[i];
      assert snap.services[..i + 1][..i] == snap.services[..i];
      if WantedService(request, snap, s) {
        var benchmark := ScoreBenchmarks(request.query, table, Some(s));
        candidates := candidates + [Candidate(false, s.serviceId, ServiceScore(request.query, request.texts, s, benchmark))];
      }
    }
    assert snap.services[..|snap.services|] == snap.services;
  }

  method MatchRoutes(registry: Registry.Registry, request: Request, table: Samples) returns (ranked: seq<Candidate>)
    requires registry.Valid() && KeyedSamples(table)
    modifies registry`rrCounters
    ensures exists roles ::
      && Sorted(Registry.RoleKey, roles) && (forall r :: r in roles <==> r in registry.roles.Values)
      && var candidates := AllCandidates(request, registry.Snap(), old(registry.rrCounters), table, roles);
      && IsRanking(candidates, request.limit, ranked) && BestFirst(candidates, request.limit, ranked)
  {
    var snap := registry.TakeSnapshot();
    var roles := registry.ListRoles();
    var ofRoles := ScoreRoles(registry, request, snap, table, roles);
    var ofServices: seq<Candidate> := [];
    if request.includeDirect {
      ofServices := ScoreServices(request, snap, table);
    }
    var all := set c | c in ofRoles + ofServices;
    AllDistinct(request, snap, old(registry.rrCounters), table, roles);
    ranked := Rank(all, request.limit);
  }

  lemma AllDistinct(request: Request, snap: Snapshot, counters: Counters, table: Samples, roles: seq<Role>)
    requires KeyedSamples(table) && Sorted(Registry.RoleKey, roles) && DistinctServices(snap.services)
    ensures DistinctCandidates(AllCandidates(request, snap, counters, table, roles))
  {
    RolesDistinct(request, snap, counters, table, roles);
    ServicesDistinct(request, snap, table, snap.services);
  }

  lemma {:induction false} RolesDistinct(request: Request, snap: Snapshot, counters: Counters, table: Samples, roles: seq<Role>)
    requires KeyedSamples(table) && Sorted(Registry.RoleKey, roles)
    ensures var scored := ScoredRoles(request, snap, counters, table, roles).0;
            && (forall c | c in scored :: c.isRole && exists r | r in roles :: r.roleId == c.id)
            && (forall c, d | c in scored && d in scored && c.id == d.id :: c == d)
  {
    hide RoleScore, BenchmarkOf, ResolveRoute;
    if roles != [] {
      var front, last := roles[..|roles| - 1], roles[|roles| - 1];
      RolesDistinct(request, snap, counters, table, front);
      forall r | r in front ensures r.roleId != last.roleId && r in roles {
        var i :| 0 <= i < |front| && front[i] == r;
        assert roles[i] == r && KeyLess(Registry.RoleKey(roles[i]), Registry.RoleKey(roles[|roles| - 1]));
        KeyOrder(Registry.RoleKey(last), Registry.RoleKey(last));
      }
      assert last in roles;
    }
  }

  lemma {:induction false} ServicesDistinct(request: Request, snap: Snapshot, table: Samples, services: seq<Service>)
    requires KeyedSamples(table) && DistinctServices(services)
    ensures var scored := ScoredServices(request, snap, table, services);
            && (forall c | c in scored :: !c.isRole && exists s | s in services :: s.serviceId == c.id)
            && (forall c, d | c in scored && d in scored && c.id == d.id :: c == d)
  {
    if services != [] {
      var front, last := services[..|services| - 1], services[|services| - 1];
      ServicesDistinct(request, snap, table, front);
      forall s | s in front ensures s.serviceId != last.serviceId && s in services {
        var i :| 0 <= i < |front| && front[i] == s;
        assert services[i] == s;
      }
      assert last in services;
    }
  }
}
