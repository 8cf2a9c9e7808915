/** What the service chosen for a request is like, read off the stored rows:
    which services are fit for it, and in what the chosen one is unrivalled. */
module Choice {
  import opened Common
  import opened Entities
  import opened Selection
  import opened Routing
  import Text

  // ---- What the marks of a service mean ---------------------------------------------

  /** The index is that of the first preferred family that the names of the
      service's assets contain. */
  lemma {:induction false} FamilyIndexMeaning(s: Service, families: seq<string>)
    ensures var i, names := FamilyIndex(s, families), Text.Lower(AssetNames(s));
            && (forall j | 0 <= j < i :: !Text.Contains(names, Text.Lower(families[j])))
            && (i < |families| ==> Text.Contains(names, Text.Lower(families[i])))
  {
    if families != [] {
      FamilyIndexMeaning(s, families[1..]);
      assert forall j | 0 < j < |families| :: families[j] == families[1..][j - 1];
    }
  }

  lemma {:induction false} NonEmptyMembers(parts: seq<string>)
    ensures forall p :: p in NonEmpty(parts) <==> p in parts && p != ""
  {
    if parts != [] {
      NonEmptyMembers(parts[1..]);
      assert parts == [parts[0]] + parts[1..];
    }
  }

  /** Where a model family may be named: the service's id, its assets, and its runtime. */
  predicate NamesFamily(s: Service, word: string) {
    || Text.Contains(Text.Lower(s.serviceId), word)
    || (exists i | 0 <= i < |s.assets| :: Text.Contains(Text.Lower(s.assets[i].assetId), word))
    || Text.Contains(Text.Lower(s.runtime.engine), word) || Text.Contains(Text.Lower(s.runtime.launcher), word)
    || Text.Contains(Text.Lower(s.runtime.providerId), word)
    || Text.Contains(Text.Lower(Shown(s.runtime.contextSize)), word)
    || Text.Contains(Text.Lower(Shown(s.runtime.maxContextTokens)), word)
  }

  lemma AssetNamesMention(s: Service, word: string)
    requires ' ' !in word && word != ""
    ensures Text.Contains(Text.Lower(AssetNames(s)), word)
            <==> exists i | 0 <= i < |s.assets| :: Text.Contains(Text.Lower(s.assets[i].assetId), word)
  {
    var names := seq(|s.assets|, i requires 0 <= i < |s.assets| => s.assets[i].assetId);
    Text.ContainsInJoin(names, word);
    assert forall i | 0 <= i < |s.assets| :: names[i] == s.assets[i].assetId && names[i] in names;
  }

  lemma RuntimeMentions(s: Service, word: string)
    requires ' ' !in word && word != ""
    ensures var runtime := [Shown(s.runtime.contextSize), s.runtime.engine, s.runtime.launcher,
                            Shown(s.runtime.maxContextTokens), s.runtime.providerId];
            Text.Contains(Text.Lower(Text.Join(NonEmpty(runtime), " ")), word)
            <==> exists p | p in runtime :: Text.Contains(Text.Lower(p), word)
  {
    var runtime := [Shown(s.runtime.contextSize), s.runtime.engine, s.runtime.launcher,
                    Shown(s.runtime.maxContextTokens), s.runtime.providerId];
    NonEmptyMembers(runtime);
    Text.ContainsInJoin(NonEmpty(runtime), word);
    assert Text.Lower("") == "" && !Text.Contains("", word);
  }

  /** A host's one-word family is looked for in all of these, in any case. */
  lemma FamilyTextMeaning(s: Service, word: string)
    requires ' ' !in word && word != ""
    ensures Text.Contains(FamilyText(s), word) <==> NamesFamily(s, word)
  {
    hide Shown, Text.Contains, AssetNames;
    var runtime := [Shown(s.runtime.contextSize), s.runtime.engine, s.runtime.launcher,
                    Shown(s.runtime.maxContextTokens), s.runtime.providerId];
    var parts := [s.serviceId, AssetNames(s), Text.Join(NonEmpty(runtime), " ")];
    Text.ContainsInJoin(parts, word);
    AssetNamesMention(s, word);
    RuntimeMentions(s, word);
    assert forall p :: p in parts <==> p == parts[0] || p == parts[1] || p == parts[2];
    assert forall p :: p in runtime <==> p == runtime[0] || p == runtime[1] || p == runtime[2] || p == runtime[3] || p == runtime[4];
  }

  /** One of the fields a guardrail profile looks at has the word, in any case. */
  predicate Mentions(s: Service, word: string) {
    || Text.Contains(Text.Lower(s.serviceId), word)
    || Text.Contains(Text.Lower(s.protocol), word)
    || Text.Contains(Text.Lower(s.runtime.engine), word)
    || Text.Contains(Text.Lower(s.runtime.launcher), word)
    || Text.Contains(Text.Lower(s.endpoint), word)
  }

  lemma MentionedInText(s: Service, word: string)
    requires ' ' !in word && word != ""
    ensures var parts := [s.serviceId, s.protocol, s.runtime.engine, s.runtime.launcher, s.endpoint];
            Text.Contains(Text.Lower(Text.Join(NonEmpty(parts), " ")), word) <==> Mentions(s, word)
  {
    var parts := [s.serviceId, s.protocol, s.runtime.engine, s.runtime.launcher, s.endpoint];
    NonEmptyMembers(parts);
    Text.ContainsInJoin(NonEmpty(parts), word);
    assert Text.Lower("") == "" && !Text.Contains("", word);
    assert forall p :: p in parts <==> p == parts[0] || p == parts[1] || p == parts[2] || p == parts[3] || p == parts[4];
  }

  /** Which services match which guardrail profile. */
  lemma GuardrailMeaning(s: Service, profile: Guardrail)
    ensures GuardrailMatch(s, profile) <==>
            match profile {
              case NoGuardrail => false
              case NativeLight => s.protocol == "openai"
              case ForgeProxy => Mentions(s, "forge")
              case ForgeMiddleware => Mentions(s, "forge") || Mentions(s, "guardrail")
            }
  {
    MentionedInText(s, "forge");
    MentionedInText(s, "guardrail");
  }

  /** The context sizes a service reports anywhere. */
  function ContextsOf(s: Service): set<int> {
    (if s.runtime.contextSize.Some? then {s.runtime.contextSize.value} else {})
    + (if s.runtime.maxContextTokens.Some? then {s.runtime.maxContextTokens.value} else {})
    + (if s.observed.maxContextTokens.Some? then {s.observed.maxContextTokens.value} else {})
    + (set i | 0 <= i < |s.assets| && s.assets[i].contextSize.Some? :: s.assets[i].contextSize.value)
    + (set i | 0 <= i < |s.assets| && s.assets[i].maxContextTokens.Some? :: s.assets[i].maxContextTokens.value)
  }

  ghost predicate IsLargest(m: Option<int>, values: set<int>) {
    (m.None? <==> values == {}) && (m.Some? ==> m.value in values && forall v | v in values :: v <= m.value)
  }

  function AssetContexts(assets: seq<Asset>): set<int> {
    (set i | 0 <= i < |assets| && assets[i].contextSize.Some? :: assets[i].contextSize.value)
    + (set i | 0 <= i < |assets| && assets[i].maxContextTokens.Some? :: assets[i].maxContextTokens.value)
  }

  function One(a: Option<int>): set<int> { if a.Some? then {a.value} else {} }

  lemma LargestOfBoth(a: Option<int>, b: Option<int>, x: set<int>, y: set<int>)
    requires IsLargest(a, x) && IsLargest(b, y)
    ensures IsLargest(Largest(a, b), x + y)
  {
    assert x == {} && y == {} ==> x + y == {};
    assert a.Some? ==> a.value in x + y;
    assert b.Some? ==> b.value in x + y;
  }

  lemma AssetContextsStep(assets: seq<Asset>)
    requires assets != []
    ensures AssetContexts(assets)
            == One(assets[0].contextSize) + One(assets[0].maxContextTokens) + AssetContexts(assets[1..])
  {
    var rest := assets[1..];
    assert forall i | 0 <= i < |rest| :: rest[i] == assets[i + 1];
    assert forall i | 0 < i < |assets| :: assets[i] == rest[i - 1];
  }

  lemma {:induction false} AssetsContextMeaning(assets: seq<Asset>)
    ensures IsLargest(AssetsContext(assets), AssetContexts(assets))
  {
    if assets != [] {
      var a, b := assets[0].contextSize, assets[0].maxContextTokens;
      AssetsContextMeaning(assets[1..]);
      AssetContextsStep(assets);
      LargestOfBoth(a, b, One(a), One(b));
      LargestOfBoth(Largest(a, b), AssetsContext(assets[1..]), One(a) + One(b), AssetContexts(assets[1..]));
    }
  }

  /** The context a service is held to is the largest it reports. */
  lemma MaxContextMeaning(s: Service)
    ensures IsLargest(MaxContext(s), ContextsOf(s))
  {
    var a, b, c, d := s.runtime.contextSize, s.runtime.maxContextTokens, s.observed.maxContextTokens, AssetsContext(s.assets);
    AssetsContextMeaning(s.assets);
    LargestOfBoth(a, b, One(a), One(b));
    LargestOfBoth(c, d, One(c), AssetContexts(s.assets));
    LargestOfBoth(Largest(a, b), Largest(c, d), One(a) + One(b), One(c) + AssetContexts(s.assets));
    assert ContextsOf(s) == One(a) + One(b) + (One(c) + AssetContexts(s.assets));
  }

  // ---- Which services are fit ----------------------------------------------------------

  /** Working, willing, and of a model family its host lets it serve. */
  ghost predicate InService(snap: Snapshot, s: Service) {
    && s.state.health == "healthy" && s.state.acceptRequests
    && (s.state.availability == Available || s.state.availability == Busy)
    && (s.hostId in snap.hosts && snap.hosts[s.hostId].allowedFamilies != {} ==>
          exists f | f in snap.hosts[s.hostId].allowedFamilies :: Text.Contains(FamilyText(s), f))
  }

  predicate OnEmployeeDevice(snap: Snapshot, s: Service) {
    && s.hostId in snap.hosts
    && (snap.hosts[s.hostId].trustTier == Some("employee_device") || snap.hosts[s.hostId].trustTier == Some("personal_device"))
  }

  /** A label a role may allow or deny: a denied one is refused, and where some
      are allowed, one that is not, or none at all, is refused too. */
  ghost predicate LabelRefused(tag: Option<string>, allowed: set<string>, denied: set<string>) {
    (tag.Some? && tag.value != "" && tag.value in denied) || (allowed != {} && (tag.None? || tag.value !in allowed))
  }

  /** The grounds on which a role refuses a service that is otherwise in service. */
  ghost predicate RefusedByRole(snap: Snapshot, s: Service, role: Role) {
    var known, policy := s.hostId in snap.hosts, role.routing;
    var tier := if known then snap.hosts[s.hostId].trustTier else None;
    var device := if known then snap.hosts[s.hostId].deviceClass else None;
    var workloads := if known then snap.hosts[s.hostId].workloadClasses else {};
    || LabelRefused(tier, policy.allowedTrustTiers, policy.deniedTrustTiers)
    || LabelRefused(device, policy.allowedDeviceClasses, policy.deniedDeviceClasses)
    || (OnEmployeeDevice(snap, s) && !policy.allowEmployeeDevices && tier.value !in policy.allowedTrustTiers)
    || (exists w :: w in workloads && w in policy.deniedWorkloadClasses)
    || (policy.allowedWorkloadClasses != {} && forall w | w in workloads :: w !in policy.allowedWorkloadClasses)
    || (policy.minContext.Some? && ContextsOf(s) != {} && forall c | c in ContextsOf(s) :: c < policy.minContext.value)
  }

  lemma RoleFitness(snap: Snapshot, s: Service, role: Role)
    ensures AllowedForRole(snap, s, role) <==> InService(snap, s) && !RefusedByRole(snap, s, role)
  {
    var host, policy := HostOf(snap, s), role.routing;
    ContextFitness(s, policy.minContext);
    WorkloadFitness(WorkloadClasses(host), policy.allowedWorkloadClasses, policy.deniedWorkloadClasses);
    assert Admits(TrustTier(host), policy.allowedTrustTiers, policy.deniedTrustTiers)
           <==> !LabelRefused(TrustTier(host), policy.allowedTrustTiers, policy.deniedTrustTiers);
    assert Admits(DeviceClass(host), policy.allowedDeviceClasses, policy.deniedDeviceClasses)
           <==> !LabelRefused(DeviceClass(host), policy.allowedDeviceClasses, policy.deniedDeviceClasses);
    InServiceMeaning(snap, s);
  }

  lemma InServiceMeaning(snap: Snapshot, s: Service)
    ensures AcceptsNewWork(s) && MatchesAnyFamily(s, AllowedFamilies(HostOf(snap, s))) <==> InService(snap, s)
  {
  }

  lemma ContextFitness(s: Service, least: Option<int>)
    ensures (least.Some? && MaxContext(s).Some? ==> MaxContext(s).value >= least.value)
            <==> !(least.Some? && ContextsOf(s) != {} && forall c | c in ContextsOf(s) :: c < least.value)
  {
    hide ContextsOf, MaxContext;
    MaxContextMeaning(s);
  }

  lemma WorkloadFitness(offered: set<string>, allowed: set<string>, denied: set<string>)
    ensures offered !! denied <==> !exists w :: w in offered && w in denied
    ensures (allowed != {} ==> offered * allowed != {}) <==> !(allowed != {} && forall w | w in offered :: w !in allowed)
  {
    var shared := offered * allowed;
    if shared != {} {
      var w :| w in shared;
      assert w in offered && w in allowed;
    }
    if w :| w in offered && w in allowed {
      assert w in shared;
    }
  }

  lemma DirectFitness(snap: Snapshot, s: Service)
    ensures AllowedForDirect(snap, s) <==>
              InService(snap, s) && (OnEmployeeDevice(snap, s) ==> s.state.allowEmployeeDirect)
  {
  }

  /** The services a role can be served by itself. */
  lemma CandidateMeaning(snap: Snapshot, role: Role, kind: Kind, s: Service)
    ensures s in Candidates(snap, role, kind) <==>
              s in snap.services && s.kind == kind && InService(snap, s) && !RefusedByRole(snap, s, role)
  {
    FilterMembers(snap.services, (r: Service) => r.kind == kind && AllowedForRole(snap, r, role));
    RoleFitness(snap, s, role);
  }

  /** The services that answer to a name themselves: their id, or that of an asset. */
  lemma DirectMeaning(snap: Snapshot, name: string, kind: Option<Kind>, s: Service)
    ensures s in DirectCandidates(snap, name, kind) <==>
              && s in snap.services && (kind.Some? ==> s.kind == kind.value) && InService(snap, s)
              && (OnEmployeeDevice(snap, s) ==> s.state.allowEmployeeDirect)
              && (s.serviceId == name || exists i | 0 <= i < |s.assets| :: s.assets[i].assetId == name)
  {
    FilterMembers(snap.services, (r: Service) =>
      (kind.Some? ==> r.kind == kind.value) && AllowedForDirect(snap, r) && Named(r, name));
    DirectFitness(snap, s);
  }

  // ---- In what the chosen service is unrivalled ------------------------------------------

  /** No slower: a known latency that is not larger, or both unknown. */
  predicate NoSlower(a: Option<real>, b: Option<real>) {
    b.Some? ==> a.Some? && a.value <= b.value
  }

  /** Under `scored`, against any other service in the running: first a guardrail
      match counts, then the earlier preferred family, then a loaded asset, then
      the lower latency (an unknown one is last), then the greater id. */
  predicate ScoredAhead(chosen: Service, other: Service, role: Role) {
    var families := role.routing.preferredFamilies;
    var guardrails := (GuardrailMatch(chosen, role.routing.guardrail), GuardrailMatch(other, role.routing.guardrail));
    var ranks := (FamilyIndex(chosen, families), FamilyIndex(other, families));
    && (guardrails.1 ==> guardrails.0)
    && (guardrails.0 == guardrails.1 ==> ranks.0 <= ranks.1)
    && (guardrails.0 == guardrails.1 && ranks.0 == ranks.1 ==> LoadedThenFaster(chosen, other))
  }

  /** Loaded first, then faster, then the greater id. */
  predicate LoadedThenFaster(chosen: Service, other: Service) {
    var a, b := chosen.observed.p50LatencyMs, other.observed.p50LatencyMs;
    && (other.AnyLoaded() ==> chosen.AnyLoaded())
    && (other.AnyLoaded() == chosen.AnyLoaded() ==>
          NoSlower(a, b) && (a == b ==> Text.Less(other.serviceId, chosen.serviceId)))
  }

  /** Queued and running requests, as far as reported. */
  function Waiting(s: Service): int {
    match (s.observed.queueDepth, s.observed.inFlight)
    case (Some(q), Some(f)) => q + f
    case (Some(q), None) => q
    case (None, Some(f)) => f
    case (None, None) => 0
  }

  /** Under `least_loaded`: fewer requests, then the lower latency (unknown or
      zero is last), then the smaller id. */
  predicate LighterAhead(chosen: Service, other: Service) {
    var a, b := chosen.observed.p50LatencyMs, other.observed.p50LatencyMs;
    var unknown := (a == None || a == Some(0.0), b == None || b == Some(0.0));
    && Waiting(chosen) <= Waiting(other)
    && (Waiting(chosen) == Waiting(other) ==>
          && (!unknown.1 ==> !unknown.0 && a.value <= b.value)
          && ((unknown.0 && unknown.1) || (!unknown.0 && a == b) ==> Text.Less(chosen.serviceId, other.serviceId)))
  }

  lemma OutscoresMeans(chosen: Service, other: Service, role: Role)
    requires Outscores(ScoreOf(chosen, role), ScoreOf(other, role))
    ensures ScoredAhead(chosen, other, role)
  {
  }

  lemma LighterMeans(chosen: Service, other: Service)
    requires Lighter(LoadOf(chosen), LoadOf(other))
    ensures LighterAhead(chosen, other)
  {
  }

  lemma DirectOutscoresMeans(chosen: Service, other: Service)
    requires Outscores(DirectScore(chosen), DirectScore(other))
    ensures LoadedThenFaster(chosen, other)
  {
  }

  /** In the running are the fit services, only the loaded ones if that is
      required and possible, and of these the ones of the earliest family. */
  ghost predicate InTheRunning(snap: Snapshot, role: Role, kind: Kind, s: Service) {
    var families := role.routing.preferredFamilies;
    && StillIn(snap, role, kind, s)
    && forall r | StillIn(snap, role, kind, r) :: FamilyIndex(s, families) <= FamilyIndex(r, families)
  }

  ghost predicate StillIn(snap: Snapshot, role: Role, kind: Kind, s: Service) {
    && Fit(snap, role, kind, s)
    && (role.routing.requireLoaded && (exists r :: Fit(snap, role, kind, r) && r.AnyLoaded()) ==> s.AnyLoaded())
  }

  ghost predicate Fit(snap: Snapshot, role: Role, kind: Kind, s: Service) {
    s in snap.services && s.kind == kind && InService(snap, s) && !RefusedByRole(snap, s, role)
  }

  lemma RunningMeaning(snap: Snapshot, role: Role, kind: Kind)
    ensures forall s :: s in Narrowed(Candidates(snap, role, kind), role) <==> InTheRunning(snap, role, kind, s)
  {
    hide InService, RefusedByRole, FamilyIndex;
    var candidates := Candidates(snap, role, kind);
    forall s ensures s in candidates <==> Fit(snap, role, kind, s) {
      CandidateMeaning(snap, role, kind, s);
    }
    NarrowedMeaning(candidates, role);
    var loadable := role.routing.requireLoaded && exists s | s in candidates :: s.AnyLoaded();
    forall s ensures StillIn(snap, role, kind, s) <==> s in candidates && (loadable ==> s.AnyLoaded()) {
    }
  }

  /** A role with services of its own is served by one in the running that is
      ahead of all others there, by what the strategy in force looks at; whether
      it is the role asked for or one the search falls back to. */
  lemma RoleIsServedBest(snap: Snapshot, counters: Counters, requested: string, kind: Option<Kind>, visited: set<string>, other: Service)
    requires DistinctServices(snap.services)
    requires var r := Resolve(snap, counters, requested, kind, visited).resolution;
             r.ViaRole? && r.served.Some? && r.fallbackVia.None?
    ensures var r := Resolve(snap, counters, requested, kind, visited).resolution;
            var role, chosen := r.role, r.served.value;
            var operation := if kind.Some? then kind.value else role.operation;
            && requested in snap.roles && role == snap.roles[requested]
            && InTheRunning(snap, role, operation, chosen)
            && (InTheRunning(snap, role, operation, other) && other != chosen ==>
                  && (snap.strategy == Scored ==> ScoredAhead(chosen, other, role))
                  && (snap.strategy == LeastLoaded ==> LighterAhead(chosen, other)))
  {
    hide InTheRunning, ScoredAhead, LighterAhead, Candidates, Narrowed, Outscores, Lighter, AllowedForRole, DirectCandidates;
    var r := Resolve(snap, counters, requested, kind, visited).resolution;
    var role := snap.roles[requested];
    OwnServiceIsScheduled(snap, counters, requested, kind, visited);
    ScheduledServiceIsBest(snap, counters, requested, role, RoleKind(role, kind));
    ScheduledIsRunning(snap, counters, requested, role, RoleKind(role, kind));
    RunningMeaning(snap, role, RoleKind(role, kind));
    var running := Narrowed(Candidates(snap, role, RoleKind(role, kind)), role);
    if other in running && other != r.served.value {
      if snap.strategy == Scored { OutscoresMeans(r.served.value, other, role); }
      if snap.strategy == LeastLoaded { LighterMeans(r.served.value, other); }
    }
  }

  lemma OwnServiceIsScheduled(snap: Snapshot, counters: Counters, requested: string, kind: Option<Kind>, visited: set<string>)
    requires var r := Resolve(snap, counters, requested, kind, visited).resolution;
             r.ViaRole? && r.served.Some? && r.fallbackVia.None?
    ensures requested in snap.roles
    ensures var role := snap.roles[requested];
            var candidates := Candidates(snap, role, RoleKind(role, kind));
            && candidates != [] && Narrowed(candidates, role) != []
            && Resolve(snap, counters, requested, kind, visited).resolution
               == ViaRole(role, Some(Scheduled(snap.strategy, counters, requested, Narrowed(candidates, role), role).0), None)
  {
    hide Candidates, Narrowed, Scheduled;
    NarrowedMeaning(Candidates(snap, snap.roles[requested], RoleKind(snap.roles[requested], kind)), snap.roles[requested]);
  }

  lemma ScheduledIsRunning(snap: Snapshot, counters: Counters, key: string, role: Role, kind: Kind)
    requires Narrowed(Candidates(snap, role, kind), role) != []
    ensures var running := Narrowed(Candidates(snap, role, kind), role);
            Scheduled(snap.strategy, counters, key, running, role).0 in running
  {
    ScheduledIsMember(snap.strategy, counters, key, Narrowed(Candidates(snap, role, kind), role), role);
  }

  /** A name that services bear themselves is served by the one of them that is
      loaded, then fastest, then of the greatest id, under every strategy. */
  lemma NameIsServedBest(snap: Snapshot, counters: Counters, requested: string, kind: Option<Kind>, other: Service)
    requires DistinctServices(snap.services)
    requires other in DirectCandidates(snap, requested, kind)
    ensures var r := ResolveRoute(snap, counters, requested, kind).resolution;
            && r.Direct? && r.service in DirectCandidates(snap, requested, kind)
            && (other != r.service ==> LoadedThenFaster(r.service, other))
  {
    var direct := DirectCandidates(snap, requested, kind);
    var chosen := Best(direct, ByDirectScore());
    FilterDistinct(snap.services, (s: Service) =>
      (kind.Some? ==> s.kind == kind.value) && AllowedForDirect(snap, s) && Named(s, requested));
    DirectOrder();
    BestIsOptimal(direct, ByDirectScore());
    if other != chosen {
      DirectOutscoresMeans(chosen, other);
    }
  }

  // ---- The order of the pool ---------------------------------------------------------------

  lemma {:induction false} FilterTwice(xs: seq<Service>, p: Service -> bool, q: Service -> bool, both: Service -> bool)
    requires forall s | s in xs :: both(s) <==> p(s) && q(s)
    ensures Filter(Filter(xs, p), q) == Filter(xs, both)
  {
    if xs != [] {
      FilterTwice(xs[1..], p, q, both);
    }
  }

  lemma {:induction false} FilterSame(xs: seq<Service>, p: Service -> bool, q: Service -> bool)
    requires forall s | s in xs :: p(s) <==> q(s)
    ensures Filter(xs, p) == Filter(xs, q)
  {
    if xs != [] {
      FilterSame(xs[1..], p, q);
    }
  }

  ghost predicate Sifted(xs: seq<Service>, ys: seq<Service>) {
    ys == Filter(xs, (s: Service) => s in ys)
  }

  lemma FilterIsSifted(xs: seq<Service>, p: Service -> bool)
    ensures Sifted(xs, Filter(xs, p))
  {
    var ys := Filter(xs, p);
    FilterMembers(xs, p);
    FilterSame(xs, p, (s: Service) => s in ys);
  }

  lemma SiftedItself(xs: seq<Service>)
    ensures Sifted(xs, xs)
  {
    FilterAll(xs, (s: Service) => s in xs);
  }

  lemma SiftedChain(xs: seq<Service>, ys: seq<Service>, zs: seq<Service>)
    requires Sifted(xs, ys) && Sifted(ys, zs)
    ensures Sifted(xs, zs)
  {
    var p, q := (s: Service) => s in ys, (s: Service) => s in zs;
    FilterMembers(ys, q);
    FilterTwice(xs, p, q, q);
  }

  /** The pool is listed in the order of the rows: round robin takes turns in it. */
  lemma PoolInListingOrder(snap: Snapshot, role: Role, kind: Kind)
    ensures Sifted(snap.services, Narrowed(Candidates(snap, role, kind), role))
  {
    var candidates := Candidates(snap, role, kind);
    var pool := PreferLoaded(candidates, role);
    var families := role.routing.preferredFamilies;
    var best := BestFamilyMatch(pool, families);
    FilterIsSifted(snap.services, (s: Service) => s.kind == kind && AllowedForRole(snap, s, role));
    FilterIsSifted(candidates, (s: Service) => s.AnyLoaded());
    SiftedItself(candidates);
    SiftedChain(snap.services, candidates, pool);
    FilterIsSifted(pool, (s: Service) => FamilyMatch(s, families) == best && best > 0);
    SiftedItself(pool);
    SiftedChain(snap.services, pool, Narrowed(candidates, role));
  }
}
