/** Which services may serve a role, and which of them is chosen. */
module Selection {
  import opened Common
  import opened Entities
  import Text

  datatype Strategy = Scored | RoundRobin | LeastLoaded

  /** What one resolution reads: the tables, services in listing order. */
  datatype Snapshot = Snapshot(
    hosts: map<string, Host>,
    services: seq<Service>,
    roles: map<string, Role>,
    strategy: Strategy)

  predicate DistinctServices(services: seq<Service>) {
    forall i, j | 0 <= i < j < |services| :: services[i].serviceId != services[j].serviceId
  }

  // ---- Eligibility -----------------------------------------------------------

  const EMPLOYEE_TIERS := {"employee_device", "personal_device"}

  function HostOf(snap: Snapshot, s: Service): Option<Host> {
    if s.hostId in snap.hosts then Some(snap.hosts[s.hostId]) else None
  }

  function TrustTier(host: Option<Host>): Option<string> {
    if host.Some? then host.value.trustTier else None
  }

  function DeviceClass(host: Option<Host>): Option<string> {
    if host.Some? then host.value.deviceClass else None
  }

  function WorkloadClasses(host: Option<Host>): set<string> {
    if host.Some? then host.value.workloadClasses else {}
  }

  function AllowedFamilies(host: Option<Host>): set<string> {
    if host.Some? then host.value.allowedFamilies else {}
  }

  predicate AcceptsNewWork(s: Service) {
    s.state.acceptRequests && s.state.health == "healthy"
    && s.state.availability !in {Draining, PausedByUser, Offline, Quarantined}
  }

  function Decimal(n: int): string
    decreases n < 0, if n < 0 then -n else n
  {
    if n < 0 then "-" + Decimal(-n)
    else if n < 10 then [['0', '1', '2', '3', '4', '5', '6', '7', '8', '9'][n]]
    else Decimal(n / 10) + Decimal(n % 10)
  }

  function Shown(n: Option<int>): string {
    if n.Some? && n.value != 0 then Decimal(n.value) else ""
  }

  function NonEmpty(parts: seq<string>): seq<string> {
    if parts == [] then []
    else if parts[0] == "" then NonEmpty(parts[1..])
    else [parts[0]] + NonEmpty(parts[1..])
  }

  function AssetNames(s: Service): string {
    Text.Join(seq(|s.assets|, i requires 0 <= i < |s.assets| => s.assets[i].assetId), " ")
  }

  /** The text a host's family allow-list is searched in; runtime values appear
      in the order of their stored (sorted) keys. */
  function FamilyText(s: Service): string {
    var runtime := [Shown(s.runtime.contextSize), s.runtime.engine, s.runtime.launcher,
                    Shown(s.runtime.maxContextTokens), s.runtime.providerId];
    Text.Lower(Text.Join([s.serviceId, AssetNames(s), Text.Join(NonEmpty(runtime), " ")], " "))
  }

  predicate MatchesAnyFamily(s: Service, families: set<string>) {
    families == {} || exists f | f in families :: Text.Contains(FamilyText(s), f)
  }

  predicate AllowedForDirect(snap: Snapshot, s: Service) {
    var host := HostOf(snap, s);
    && AcceptsNewWork(s)
    && MatchesAnyFamily(s, AllowedFamilies(host))
    && (TrustTier(host).Some? && TrustTier(host).value in EMPLOYEE_TIERS ==> s.state.allowEmployeeDirect)
  }

  function Largest(a: Option<int>, b: Option<int>): Option<int> {
    if a.None? then b else if b.None? then a else if a.value < b.value then b else a
  }

  function AssetsContext(assets: seq<Asset>): Option<int> {
    if assets == [] then None
    else Largest(Largest(assets[0].contextSize, assets[0].maxContextTokens), AssetsContext(assets[1..]))
  }

  function MaxContext(s: Service): Option<int> {
    Largest(Largest(s.runtime.contextSize, s.runtime.maxContextTokens),
            Largest(s.observed.maxContextTokens, AssetsContext(s.assets)))
  }

  /** A deny list refuses what it names; a non-empty allow list refuses the rest,
      including a host that does not say. */
  predicate Admits(value: Option<string>, allowed: set<string>, denied: set<string>) {
    && (value.Some? && value.value != "" ==> value.value !in denied)
    && (allowed != {} ==> value.Some? && value.value in allowed)
  }

  predicate AllowedForRole(snap: Snapshot, s: Service, role: Role) {
    var host, policy := HostOf(snap, s), role.routing;
    var tier := TrustTier(host);
    && AcceptsNewWork(s)
    && MatchesAnyFamily(s, AllowedFamilies(host))
    && Admits(tier, policy.allowedTrustTiers, policy.deniedTrustTiers)
    && (tier.Some? && tier.value in EMPLOYEE_TIERS ==> policy.allowEmployeeDevices || tier.value in policy.allowedTrustTiers)
    && Admits(DeviceClass(host), policy.allowedDeviceClasses, policy.deniedDeviceClasses)
    && WorkloadClasses(host) !! policy.deniedWorkloadClasses
    && (policy.allowedWorkloadClasses != {} ==> WorkloadClasses(host) * policy.allowedWorkloadClasses != {})
    && (policy.minContext.Some? && MaxContext(s).Some? ==> MaxContext(s).value >= policy.minContext.value)
  }

  // ---- Narrowing the candidates ------------------------------------------------

  function Filter(services: seq<Service>, keep: Service -> bool): seq<Service> {
    if services == [] then []
    else if keep(services[0]) then [services[0]] + Filter(services[1..], keep)
    else Filter(services[1..], keep)
  }

  lemma {:induction false} FilterMembers(services: seq<Service>, keep: Service -> bool)
    ensures forall s :: s in Filter(services, keep) <==> s in services && keep(s)
  {
    if services != [] {
      FilterMembers(services[1..], keep);
      assert forall s :: s in services <==> s == services[0] || s in services[1..];
    }
  }

  lemma {:induction false} FilterDistinct(services: seq<Service>, keep: Service -> bool)
    requires DistinctServices(services)
    ensures DistinctServices(Filter(services, keep))
  {
    if services != [] {
      var rest := services[1..];
      FilterDistinct(rest, keep);
      FilterMembers(rest, keep);
      forall i | 0 <= i < |Filter(rest, keep)|
        ensures Filter(rest, keep)[i].serviceId != services[0].serviceId
      {
        assert Filter(rest, keep)[i] in rest;
      }
    }
  }

  lemma {:induction false} FilterAll(services: seq<Service>, keep: Service -> bool)
    requires forall s | s in services :: keep(s)
    ensures Filter(services, keep) == services
  {
    if services != [] {
      FilterAll(services[1..], keep);
    }
  }

  lemma {:induction false} FilterNone(services: seq<Service>, keep: Service -> bool)
    requires forall s | s in services :: !keep(s)
    ensures Filter(services, keep) == []
  {
    if services != [] {
      FilterNone(services[1..], keep);
    }
  }

  /** Filtering keeps the order. */
  lemma {:induction false} FilterKeepsOrder(xs: seq<Service>, ys: seq<Service>, keep: Service -> bool)
    ensures Filter(xs + ys, keep) == Filter(xs, keep) + Filter(ys, keep)
    ensures forall s :: Filter([s], keep) == if keep(s) then [s] else []
  {
    if xs == [] {
      assert xs + ys == ys;
    } else {
      assert (xs + ys)[0] == xs[0] && (xs + ys)[1..] == xs[1..] + ys;
      FilterKeepsOrder(xs[1..], ys, keep);
    }
  }

  function Candidates(snap: Snapshot, role: Role, kind: Kind): seq<Service> {
    Filter(snap.services, (s: Service) => s.kind == kind && AllowedForRole(snap, s, role))
  }

  /** Position of the first preferred family named by the service's assets; the
      list's length if none is. */
  function FamilyIndex(s: Service, families: seq<string>): (i: nat)
    ensures i <= |families|
  {
    if families == [] then 0
    else if Text.Contains(Text.Lower(AssetNames(s)), Text.Lower(families[0])) then 0
    else 1 + FamilyIndex(s, families[1..])
  }

  /** The registry's scores count down: a better family match is a larger number, 0 is none. */
  function FamilyMatch(s: Service, families: seq<string>): nat {
    |families| - FamilyIndex(s, families)
  }

  function BestFamilyMatch(services: seq<Service>, families: seq<string>): nat {
    if services == [] then 0
    else
      var rest := BestFamilyMatch(services[1..], families);
      var first := FamilyMatch(services[0], families);
      if rest < first then first else rest
  }

  lemma {:induction false} BestFamilyMatchIsMax(services: seq<Service>, families: seq<string>)
    ensures forall s | s in services :: FamilyMatch(s, families) <= BestFamilyMatch(services, families)
    ensures services != [] ==> exists s | s in services :: FamilyMatch(s, families) == BestFamilyMatch(services, families)
  {
    if services != [] {
      BestFamilyMatchIsMax(services[1..], families);
      assert services[0] in services;
      if |services| > 1 {
        var s :| s in services[1..] && FamilyMatch(s, families) == BestFamilyMatch(services[1..], families);
        assert s in services;
      }
    }
  }

  function PreferLoaded(candidates: seq<Service>, role: Role): seq<Service> {
    var loaded := Filter(candidates, (s: Service) => s.AnyLoaded());
    if role.routing.requireLoaded && loaded != [] then loaded else candidates
  }

  function PreferFamily(candidates: seq<Service>, role: Role): seq<Service> {
    var families := role.routing.preferredFamilies;
    var best := BestFamilyMatch(candidates, families);
    var preferred := Filter(candidates, (s: Service) => FamilyMatch(s, families) == best && best > 0);
    if families != [] && preferred != [] then preferred else candidates
  }

  function Narrowed(candidates: seq<Service>, role: Role): seq<Service> {
    PreferFamily(PreferLoaded(candidates, role), role)
  }

  /** Narrowing keeps candidates only and never runs dry; if loading is required
      and possible it keeps loaded ones only; and among those it keeps exactly
      the ones with the earliest preferred family. */
  lemma NarrowedMeaning(candidates: seq<Service>, role: Role)
    ensures var families, result := role.routing.preferredFamilies, Narrowed(candidates, role);
            var loadable := role.routing.requireLoaded && exists s | s in candidates :: s.AnyLoaded();
            && (result == [] <==> candidates == [])
            && (forall s :: s in result <==>
                  && s in candidates
                  && (loadable ==> s.AnyLoaded())
                  && forall r | r in candidates && (loadable ==> r.AnyLoaded()) :: FamilyIndex(s, families) <= FamilyIndex(r, families))
  {
    LoadedPool(candidates, role);
    FamilyPool(PreferLoaded(candidates, role), role);
  }

  lemma LoadedPool(candidates: seq<Service>, role: Role)
    ensures var loadable := role.routing.requireLoaded && exists s | s in candidates :: s.AnyLoaded();
            && (forall s :: s in PreferLoaded(candidates, role) <==> s in candidates && (loadable ==> s.AnyLoaded()))
            && (PreferLoaded(candidates, role) == [] <==> candidates == [])
  {
    var loaded := Filter(candidates, (s: Service) => s.AnyLoaded());
    FilterMembers(candidates, (s: Service) => s.AnyLoaded());
    if loaded != [] {
      assert loaded[0] in loaded;
    }
  }

  lemma FamilyPool(pool: seq<Service>, role: Role)
    ensures var families := role.routing.preferredFamilies;
            && (forall s :: s in PreferFamily(pool, role) <==>
                  s in pool && forall r | r in pool :: FamilyIndex(s, families) <= FamilyIndex(r, families))
            && (PreferFamily(pool, role) == [] <==> pool == [])
  {
    var families := role.routing.preferredFamilies;
    var best := BestFamilyMatch(pool, families);
    var keep := (s: Service) => FamilyMatch(s, families) == best && best > 0;
    FilterMembers(pool, keep);
    BestFamilyMatchIsMax(pool, families);
    if pool != [] {
      var top :| top in pool && FamilyMatch(top, families) == best;
      var preferred := Filter(pool, keep);
      assert best > 0 ==> top in preferred;
      assert best == 0 ==> preferred == [] by {
        assert preferred != [] ==> preferred[0] in preferred;
      }
      forall s | s in pool
        ensures FamilyMatch(s, families) == best
                <==> forall r | r in pool :: FamilyIndex(s, families) <= FamilyIndex(r, families)
      {
        if FamilyMatch(s, families) == best {
          forall r | r in pool ensures FamilyIndex(s, families) <= FamilyIndex(r, families) {
            assert FamilyMatch(r, families) <= best;
          }
        }
        assert FamilyIndex(s, families) <= FamilyIndex(top, families) ==> FamilyMatch(s, families) >= best;
      }
    }
  }

  // ---- Scores and loads as strict orders ------------------------------------------

  predicate GuardrailMatch(s: Service, profile: Guardrail) {
    var text := Text.Lower(Text.Join(NonEmpty(
      [s.serviceId, s.protocol, s.runtime.engine, s.runtime.launcher, s.endpoint]), " "));
    match profile
    case NoGuardrail => false
    case NativeLight => s.protocol == "openai"
    case ForgeProxy => Text.Contains(text, "forge")
    case ForgeMiddleware => Text.Contains(text, "forge") || Text.Contains(text, "guardrail")
  }

  datatype Score = Score(guardrail: int, family: int, loaded: int, latency: Option<real>, id: string)

  function ScoreOf(s: Service, role: Role): Score {
    Score(if GuardrailMatch(s, role.routing.guardrail) then 1 else 0,
          FamilyMatch(s, role.routing.preferredFamilies),
          if s.AnyLoaded() then 1 else 0,
          s.observed.p50LatencyMs,
          s.serviceId)
  }

  /** Faster first; an unknown latency counts as infinite. */
  predicate Faster(a: Option<real>, b: Option<real>) {
    a.Some? && (b.None? || a.value < b.value)
  }

  /** Higher guardrail, family and loaded marks, then lower latency, then the later id. */
  predicate Outscores(a: Score, b: Score) {
    if a.guardrail != b.guardrail then a.guardrail > b.guardrail
    else if a.family != b.family then a.family > b.family
    else if a.loaded != b.loaded then a.loaded > b.loaded
    else if a.latency != b.latency then Faster(a.latency, b.latency)
    else Text.Less(b.id, a.id)
  }

  datatype Load = Load(queued: int, latency: Option<real>, id: string)

  /** A latency of exactly zero counts as unknown here, unlike in `ScoreOf`. */
  function LoadOf(s: Service): Load {
    var latency := s.observed.p50LatencyMs;
    Load((if s.observed.queueDepth.Some? then s.observed.queueDepth.value else 0)
         + (if s.observed.inFlight.Some? then s.observed.inFlight.value else 0),
         if latency == Some(0.0) then None else latency,
         s.serviceId)
  }

  predicate Lighter(a: Load, b: Load) {
    if a.queued != b.queued then a.queued < b.queued
    else if a.latency != b.latency then Faster(a.latency, b.latency)
    else Text.Less(a.id, b.id)
  }

  lemma OutscoresOrder(a: Score, b: Score, c: Score)
    ensures !Outscores(a, a)
    ensures Outscores(a, b) && Outscores(b, c) ==> Outscores(a, c)
    ensures a != b ==> Outscores(a, b) || Outscores(b, a)
  {
    Text.LessIrreflexive(a.id);
    Text.LessTotal(a.id, b.id);
    if Text.Less(b.id, a.id) && Text.Less(c.id, b.id) { Text.LessTransitive(c.id, b.id, a.id); }
  }

  lemma LighterOrder(a: Load, b: Load, c: Load)
    ensures !Lighter(a, a)
    ensures Lighter(a, b) && Lighter(b, c) ==> Lighter(a, c)
    ensures a != b ==> Lighter(a, b) || Lighter(b, a)
  {
    Text.LessIrreflexive(a.id);
    Text.LessTotal(a.id, b.id);
    if Text.Less(a.id, b.id) && Text.Less(b.id, c.id) { Text.LessTransitive(a.id, b.id, c.id); }
  }

  // ---- Picking the first optimum ------------------------------------------------

  type Better = (Service, Service) -> bool

  ghost predicate StrictOrder(better: Better) {
    && (forall a :: !better(a, a))
    && (forall a, b, c :: better(a, b) && better(b, c) ==> better(a, c))
    && (forall a: Service, b: Service :: a.serviceId != b.serviceId ==> better(a, b) || better(b, a))
  }

  function Best(candidates: seq<Service>, better: Better): Service
    requires candidates != []
  {
    if |candidates| == 1 then candidates[0]
    else
      var rest := Best(candidates[1..], better);
      if better(rest, candidates[0]) then rest else candidates[0]
  }

  lemma {:induction false} BestIsOptimal(candidates: seq<Service>, better: Better)
    requires candidates != [] && StrictOrder(better) && DistinctServices(candidates)
    ensures Best(candidates, better) in candidates
    ensures forall s | s in candidates && s != Best(candidates, better) :: better(Best(candidates, better), s)
  {
    if |candidates| > 1 {
      var rest := candidates[1..];
      BestIsOptimal(rest, better);
      var b := Best(rest, better);
      var i :| 0 <= i < |rest| && rest[i] == b;
      assert candidates[i + 1] == b && candidates[0].serviceId != b.serviceId;
      assert forall s :: s in candidates <==> s == candidates[0] || s in rest;
    }
  }

  /** The choice depends on the set of candidates, not on the order of rows. */
  lemma RowOrderIrrelevant(xs: seq<Service>, ys: seq<Service>, better: Better)
    requires xs != [] && ys != [] && StrictOrder(better)
    requires DistinctServices(xs) && DistinctServices(ys) && forall s :: s in xs <==> s in ys
    ensures Best(xs, better) == Best(ys, better)
  {
    BestIsOptimal(xs, better);
    BestIsOptimal(ys, better);
    var x, y := Best(xs, better), Best(ys, better);
    assert x != y ==> better(x, y) && better(y, x);
    assert better(x, y) && better(y, x) ==> better(x, x);
  }

  function ByScore(role: Role): Better {
    (a: Service, b: Service) => Outscores(ScoreOf(a, role), ScoreOf(b, role))
  }

  function ByLoad(): Better {
    (a: Service, b: Service) => Lighter(LoadOf(a), LoadOf(b))
  }

  lemma ByScoreIsStrict(role: Role)
    ensures StrictOrder(ByScore(role))
  {
    forall a: Service, b: Service, c: Service
      ensures !ByScore(role)(a, a)
      ensures ByScore(role)(a, b) && ByScore(role)(b, c) ==> ByScore(role)(a, c)
      ensures a.serviceId != b.serviceId ==> ByScore(role)(a, b) || ByScore(role)(b, a)
    {
      OutscoresOrder(ScoreOf(a, role), ScoreOf(b, role), ScoreOf(c, role));
    }
  }

  lemma ByLoadIsStrict()
    ensures StrictOrder(ByLoad())
  {
    forall a: Service, b: Service, c: Service
      ensures !ByLoad()(a, a)
      ensures ByLoad()(a, b) && ByLoad()(b, c) ==> ByLoad()(a, c)
      ensures a.serviceId != b.serviceId ==> ByLoad()(a, b) || ByLoad()(b, a)
    {
      LighterOrder(LoadOf(a), LoadOf(b), LoadOf(c));
    }
  }

  // ---- Scheduling ---------------------------------------------------------------

  type Counters = map<string, nat>

  function Turn(counters: Counters, key: string, n: nat): nat
    requires n > 0
  {
    (if key in counters then counters[key] else 0) % n
  }

  function Scheduled(strategy: Strategy, counters: Counters, key: string, candidates: seq<Service>, role: Role): (Service, Counters)
    requires candidates != []
  {
    match strategy
    case RoundRobin =>
      var turn := Turn(counters, key, |candidates|);
      (candidates[turn], counters[key := turn + 1])
    case LeastLoaded => (Best(candidates, ByLoad()), counters)
    case Scored => (Best(candidates, ByScore(role)), counters)
  }

  lemma {:induction false} BestIsMember(candidates: seq<Service>, better: Better)
    requires candidates != []
    ensures Best(candidates, better) in candidates
  {
    if |candidates| > 1 {
      BestIsMember(candidates[1..], better);
    }
  }

  /** The service scheduled for a role, under every strategy: eligible, loaded
      when that is required and possible, and of the earliest preferred family
      on offer; under the two scoring strategies it beats every other service
      left in the running. */
  lemma ScheduledServiceIsBest(snap: Snapshot, counters: Counters, key: string, role: Role, kind: Kind)
    requires DistinctServices(snap.services)
    requires Candidates(snap, role, kind) != []
    ensures var candidates := Candidates(snap, role, kind);
            var running := Narrowed(candidates, role);
            var families := role.routing.preferredFamilies;
            var loadable := role.routing.requireLoaded && exists s | s in candidates :: s.AnyLoaded();
            running != [] &&
            var chosen := Scheduled(snap.strategy, counters, key, running, role).0;
            && chosen in snap.services && chosen.kind == kind && AllowedForRole(snap, chosen, role)
            && (loadable ==> chosen.AnyLoaded())
            && (forall r | r in candidates && (loadable ==> r.AnyLoaded()) :: FamilyIndex(chosen, families) <= FamilyIndex(r, families))
            && (snap.strategy == Scored ==>
                  forall s | s in running && s != chosen :: Outscores(ScoreOf(chosen, role), ScoreOf(s, role)))
            && (snap.strategy == LeastLoaded ==>
                  forall s | s in running && s != chosen :: Lighter(LoadOf(chosen), LoadOf(s)))
  {
    var candidates := Candidates(snap, role, kind);
    var running := Narrowed(candidates, role);
    var keep := (s: Service) => s.kind == kind && AllowedForRole(snap, s, role);
    FilterMembers(snap.services, keep);
    FilterDistinct(snap.services, keep);
    NarrowedMeaning(candidates, role);
    NarrowedDistinct(candidates, role);
    match snap.strategy {
      case RoundRobin => assert running[Turn(counters, key, |running|)] in running;
      case LeastLoaded => ByLoadIsStrict(); BestIsOptimal(running, ByLoad());
      case Scored => ByScoreIsStrict(role); BestIsOptimal(running, ByScore(role));
    }
  }

  lemma NarrowedDistinct(candidates: seq<Service>, role: Role)
    requires DistinctServices(candidates)
    ensures DistinctServices(Narrowed(candidates, role))
  {
    var families := role.routing.preferredFamilies;
    var pool := PreferLoaded(candidates, role);
    var best := BestFamilyMatch(pool, families);
    FilterDistinct(candidates, (s: Service) => s.AnyLoaded());
    FilterDistinct(pool, (s: Service) => FamilyMatch(s, families) == best && best > 0);
  }
}
