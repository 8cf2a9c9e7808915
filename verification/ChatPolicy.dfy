/** The request policy in the request actually sent: which default shows at
    which path, and where the system prompt stands. */
module ChatPolicy {
  import opened Common
  import opened Json
  import opened Entities
  import opened DeepMerge
  import opened RequestPolicy
  import opened Selection
  import opened Routing
  import opened Chat
  import Text

  // ---- Whose policy is in force -------------------------------------------------------

  /** The role a chat request names: that of its id, unless services bear the
      name themselves. */
  function RoleInForce(snap: Snapshot, requested: string): Option<Role> {
    if DirectCandidates(snap, requested, Some(Kind.Chat)) == [] && requested in snap.roles
    then Some(snap.roles[requested]) else None
  }

  function RolePolicy(snap: Snapshot, requested: string): Policy {
    match RoleInForce(snap, requested)
    case Some(role) => role.requestPolicy
    case None => Policy(map[], "", Prepend)
  }

  /** The policy of the asset that serves: of the service that serves. */
  function AssetPolicy(service: Service, requested: string): Policy {
    match SelectTargetAsset(service.assets, requested)
    case Some(asset) => asset.requestPolicy
    case None => Policy(map[], "", Prepend)
  }

  /** Thinking is switched off for what looks like a Qwen3 model by any of its names. */
  predicate LooksThinking(service: Service, requested: string) {
    || LooksLikeQwen3(requested) || LooksLikeQwen3(service.serviceId)
    || exists i | 0 <= i < |service.assets| :: LooksLikeQwen3(service.assets[i].assetId)
  }

  function InferredDefaults(service: Service, requested: string): map<string, Json> {
    if LooksThinking(service, requested)
    then map["chat_template_kwargs" := Obj(map["enable_thinking" := Bool(false)])]
    else map[]
  }

  /** The asset of a service that serves a request: the first one named, else
      the first loaded one with a name, else the first with a name. */
  lemma {:induction false} FirstAssetIs(assets: seq<Asset>, accept: Asset -> bool)
    ensures match FirstAsset(assets, accept)
            case None => forall a | a in assets :: !accept(a)
            case Some(a) => exists i :: 0 <= i < |assets| && assets[i] == a && accept(a) && forall j | 0 <= j < i :: !accept(assets[j])
  {
    if assets != [] && !accept(assets[0]) {
      var rest := assets[1..];
      FirstAssetIs(rest, accept);
      assert forall a | a in assets :: a == assets[0] || a in rest;
      if FirstAsset(rest, accept).Some? {
        var a := FirstAsset(rest, accept).value;
        var i :| 0 <= i < |rest| && rest[i] == a && accept(a) && forall j | 0 <= j < i :: !accept(rest[j]);
        assert assets[i + 1] == a;
        forall j | 0 <= j < i + 1 ensures !accept(assets[j]) {
          if j > 0 { assert assets[j] == rest[j - 1]; }
        }
      }
    } else if assets != [] {
      assert assets[0] == FirstAsset(assets, accept).value;
    }
  }

  ghost predicate FirstSuch(assets: seq<Asset>, asset: Asset, accept: Asset -> bool) {
    exists i :: 0 <= i < |assets| && assets[i] == asset && accept(asset) && forall j | 0 <= j < i :: !accept(assets[j])
  }

  lemma TargetAssetMeaning(assets: seq<Asset>, requested: string)
    ensures var named := exists a | a in assets :: a.assetId == requested;
            var loaded := exists a | a in assets :: a.loaded && a.assetId != "";
            match SelectTargetAsset(assets, requested)
            case None => !named && forall a | a in assets :: a.assetId == ""
            case Some(a) =>
              if named then FirstSuch(assets, a, (x: Asset) => x.assetId == requested)
              else if loaded then FirstSuch(assets, a, (x: Asset) => x.loaded && x.assetId != "")
              else FirstSuch(assets, a, (x: Asset) => x.assetId != "")
  {
    FirstAssetIs(assets, (x: Asset) => x.assetId == requested);
    FirstAssetIs(assets, (x: Asset) => x.loaded && x.assetId != "");
    FirstAssetIs(assets, (x: Asset) => x.assetId != "");
  }

  // ---- Defaults ------------------------------------------------------------------------

  /** At a path nobody more specific decides, the value shown is this document's. */
  predicate LeavesOpen(j: Json, path: seq<string>) {
    Lookup(j, path).None? && !Blocked(j, path)
  }

  predicate HasLeaf(j: Json, path: seq<string>) {
    Lookup(j, path).Some? && !Lookup(j, path).value.Obj?
  }

  lemma ShapedShowsLayers(body: Json, requested: string, service: Service, role: Option<Role>, path: seq<string>)
    requires body.Obj? && path != [] && path[0] != "messages" && LeavesOpen(body, path)
    ensures Lookup(Shaped(body, PolicyFor(requested, service, role)), path)
            == Lookup(Obj(Combined(ChatLayers(requested, service, role)).bodyDefaults), path)
  {
    var combined := Combined(ChatLayers(requested, service, role));
    if combined != EMPTY {
      ShapingKeepsClientValues(body, combined, path);
    }
  }

  lemma SentBesideModel(body: Json, requested: string, service: Service, role: Option<Role>, path: seq<string>)
    requires body.Obj? && path != [] && path[0] != "model"
    ensures Lookup(UpstreamBody(body, requested, service, role), path)
            == Lookup(Shaped(body, PolicyFor(requested, service, role)), path)
  {
  }

  /** A prepared request is what `UpstreamBody` makes of it for its role. */
  lemma PreparedBody(snap: Snapshot, counters: Counters, body: Json)
    requires body.Obj? && Prepare(snap, counters, body).0.Ok?
    ensures Get(body, "model").Str? && Get(body, "model").s != ""
    ensures var (service, sent) := Prepare(snap, counters, body).0.value;
            var requested := Get(body, "model").s;
            sent == UpstreamBody(body, requested, service, RoleInForce(snap, requested))
  {
    var requested := Get(body, "model").s;
    AnswerShape(snap, counters, requested, Some(Kind.Chat), {requested});
  }

  /** The defaults reach the request: at every path outside `model` and
      `messages` that the client left open, the body sent shows the role's
      default, else the serving asset's, else the inferred one. */
  lemma DefaultsReachTheRequest(snap: Snapshot, counters: Counters, body: Json, path: seq<string>)
    requires body.Obj? && Prepare(snap, counters, body).0.Ok?
    ensures var (service, sent) := Prepare(snap, counters, body).0.value;
            var requested := Get(body, "model").s;
            var ofRole, ofAsset := Obj(RolePolicy(snap, requested).bodyDefaults), Obj(AssetPolicy(service, requested).bodyDefaults);
            var inferred := Obj(InferredDefaults(service, requested));
            path != [] && path[0] != "messages" && path[0] != "model" && LeavesOpen(body, path) ==>
            && (HasLeaf(ofRole, path) ==> Lookup(sent, path) == Lookup(ofRole, path))
            && (LeavesOpen(ofRole, path) && HasLeaf(ofAsset, path) ==> Lookup(sent, path) == Lookup(ofAsset, path))
            && (LeavesOpen(ofRole, path) && LeavesOpen(ofAsset, path) ==> Lookup(sent, path) == Lookup(inferred, path))
  {
    var (service, sent) := Prepare(snap, counters, body).0.value;
    var requested := Get(body, "model").s;
    PreparedBody(snap, counters, body);
    var role := RoleInForce(snap, requested);
    LayersInForce(snap, requested, service);
    if path != [] && path[0] != "messages" && path[0] != "model" && LeavesOpen(body, path) {
      SentBesideModel(body, requested, service, role, path);
      ShapedShowsLayers(body, requested, service, role, path);
      ChatLayerPrecedence(requested, service, role, path);
    }
  }

  lemma LayersInForce(snap: Snapshot, requested: string, service: Service)
    ensures var layers := ChatLayers(requested, service, RoleInForce(snap, requested));
            && |layers| == 3
            && DefaultsOf(layers[2]) == Obj(RolePolicy(snap, requested).bodyDefaults)
            && DefaultsOf(layers[1]) == Obj(AssetPolicy(service, requested).bodyDefaults)
            && DefaultsOf(layers[0]) == Obj(InferredDefaults(service, requested))
            && (HasPrompt(layers[2]) <==> RolePolicy(snap, requested).systemPrompt != "")
            && (HasPrompt(layers[1]) <==> AssetPolicy(service, requested).systemPrompt != "")
            && !HasPrompt(layers[0])
  {
  }

  // ---- The system prompt ------------------------------------------------------------------

  /** The role's prompt, else the serving asset's; empty if neither has one. */
  function PromptInForce(snap: Snapshot, requested: string, service: Service): (string, Position) {
    var ofRole, ofAsset := RolePolicy(snap, requested), AssetPolicy(service, requested);
    if ofRole.systemPrompt != "" then (ofRole.systemPrompt, ofRole.position)
    else if ofAsset.systemPrompt != "" then (ofAsset.systemPrompt, ofAsset.position)
    else ("", Prepend)
  }

  /** The messages a request is shaped from: the client's, else the defaults'. */
  function MessagesGiven(snap: Snapshot, requested: string, service: Service, body: Json): Json
    requires body.Obj?
  {
    var ofRole, ofAsset := RolePolicy(snap, requested).bodyDefaults, AssetPolicy(service, requested).bodyDefaults;
    if "messages" in body.fields then body.fields["messages"]
    else if "messages" in ofRole then ofRole["messages"]
    else if "messages" in ofAsset then ofAsset["messages"]
    else Null
  }

  predicate IsPrompt(m: Json, prompt: string) {
    SystemRole(m) && "content" in m.fields && m.fields["content"] == Str(prompt)
  }

  predicate SystemRole(m: Json) {
    m.Obj? && "role" in m.fields && m.fields["role"] == Str("system")
  }

  /** Where the prompt stands: nowhere new if it was there; else first, or last,
      or in place of the first system message (first if there is none). */
  predicate PromptStands(before: seq<Json>, after: seq<Json>, prompt: string, position: Position) {
    var system := Obj(map["role" := Str("system"), "content" := Str(prompt)]);
    if exists i | 0 <= i < |before| :: IsPrompt(before[i], prompt) then after == before
    else
      match position
      case Prepend => after == [system] + before
      case Append => after == before + [system]
      case Replace =>
        if exists i | 0 <= i < |before| :: SystemRole(before[i])
        then exists i | 0 <= i < |before| ::
               SystemRole(before[i]) && (forall j | 0 <= j < i :: !SystemRole(before[j])) && after == before[i := system]
        else after == [system] + before
  }

  lemma InjectedStands(before: seq<Json>, prompt: string, position: Position)
    ensures PromptStands(before, Injected(before, prompt, position), prompt, position)
  {
    forall m: Json ensures IsSystem(m) <==> SystemRole(m) {}
    forall m: Json ensures CarriesPrompt(m, prompt) <==> IsPrompt(m, prompt) {}
    var i := FirstSystem(before);
    assert i < |before| ==> SystemRole(before[i]);
    assert PromptPresent(before, prompt) <==> exists i | 0 <= i < |before| :: IsPrompt(before[i], prompt);
  }

  /** Only messages that are objects are kept, and these in order. */
  lemma {:induction false} ObjectsAreKept(a: seq<Json>, b: seq<Json>)
    ensures Dicts(a + b) == Dicts(a) + Dicts(b)
    ensures forall m :: Dicts([m]) == if m.Obj? then [m] else []
  {
    if a == [] {
      assert a + b == b;
    } else {
      assert (a + b)[0] == a[0] && (a + b)[1..] == a[1..] + b;
      ObjectsAreKept(a[1..], b);
    }
  }

  lemma CombinedPrompt(layers: seq<Option<Policy>>)
    requires |layers| == 3 && !HasPrompt(layers[0])
    ensures var combined := Combined(layers);
            (combined.systemPrompt, combined.position) ==
            if HasPrompt(layers[2]) then (layers[2].value.systemPrompt, layers[2].value.position)
            else if HasPrompt(layers[1]) then (layers[1].value.systemPrompt, layers[1].value.position)
            else ("", Prepend)
  {
    var one, two := layers[..1], layers[..2];
    assert layers[..|layers| - 1] == two && two[..|two| - 1] == one && one[..|one| - 1] == [];
    assert Combined(one) == Combine(EMPTY, layers[0]);
    assert Combined(two) == Combine(Combined(one), layers[1]);
    assert Combined(layers) == Combine(Combined(two), layers[2]);
  }

  lemma MergedMessages(body: Json, requested: string, service: Service, snap: Snapshot)
    requires body.Obj?
    ensures var merged := Combined(ChatLayers(requested, service, RoleInForce(snap, requested))).bodyDefaults;
            var shown, given := Get(Defaults(body, Obj(merged)), "messages"), MessagesGiven(snap, requested, service, body);
            shown == given || (!shown.Arr? && !given.Arr?)
  {
    hide ChatLayers, RolePolicy, AssetPolicy, InferredDefaults, Combined;
    var layers := ChatLayers(requested, service, RoleInForce(snap, requested));
    LayersInForce(snap, requested, service);
    CombinedThree(layers);
    NothingInferred(service, requested);
    MessagesMerged(body, InferredDefaults(service, requested), AssetPolicy(service, requested).bodyDefaults,
                   RolePolicy(snap, requested).bodyDefaults);
  }

  lemma NothingInferred(service: Service, requested: string)
    ensures "messages" !in InferredDefaults(service, requested)
  {
  }

  lemma MessagesMerged(body: Json, inferred: map<string, Json>, ofAsset: map<string, Json>, ofRole: map<string, Json>)
    requires body.Obj? && "messages" !in inferred
    ensures var merged := Override(Override(Obj(inferred), Obj(ofAsset)), Obj(ofRole));
            var given := if "messages" in body.fields then body.fields["messages"]
                         else if "messages" in ofRole then ofRole["messages"]
                         else if "messages" in ofAsset then ofAsset["messages"] else Null;
            Get(Defaults(body, merged), "messages") == given
            || (!Get(Defaults(body, merged), "messages").Arr? && !given.Arr?)
  {
  }

  lemma ShapedMessages(body: Json, policy: Policy)
    requires body.Obj?
    ensures var filled := Get(Defaults(body, Obj(policy.bodyDefaults)), "messages");
            Get(Shaped(body, Some(policy)), "messages") ==
            if policy.systemPrompt == "" || !filled.Arr? then filled
            else Arr(Injected(Dicts(filled.items), policy.systemPrompt, policy.position))
  {
  }

  /** The prompt reaches the request: if one is in force and the messages are a
      list, the list sent holds it where its position says; if none is, the
      messages are sent as given. */
  lemma PromptReachesTheRequest(snap: Snapshot, counters: Counters, body: Json)
    requires body.Obj? && Prepare(snap, counters, body).0.Ok?
    ensures var (service, sent) := Prepare(snap, counters, body).0.value;
            var requested := Get(body, "model").s;
            var (prompt, position) := PromptInForce(snap, requested, service);
            var given := MessagesGiven(snap, requested, service, body);
            given.Arr? ==>
              && Get(sent, "messages").Arr?
              && (prompt != "" ==> PromptStands(Dicts(given.items), Get(sent, "messages").items, prompt, position))
              && (prompt == "" ==> Get(sent, "messages") == given)
  {
    hide Defaults, Injected, PromptStands;
    var (service, sent) := Prepare(snap, counters, body).0.value;
    var requested := Get(body, "model").s;
    PreparedBody(snap, counters, body);
    var layers := ChatLayers(requested, service, RoleInForce(snap, requested));
    var combined := Combined(layers);
    LayersInForce(snap, requested, service);
    PromptOfLayers(snap, requested, service);
    MergedMessages(body, requested, service, snap);
    MessagesBesideModel(body, requested, service, RoleInForce(snap, requested));
    var given := MessagesGiven(snap, requested, service, body);
    if given.Arr? && combined != EMPTY {
      ShapedMessages(body, combined);
      InjectedStands(Dicts(given.items), combined.systemPrompt, combined.position);
    } else if given.Arr? {
      NothingMerged(body);
    }
  }

  lemma NothingMerged(body: Json)
    requires body.Obj?
    ensures Defaults(body, Obj(map[])) == body
  {
    assert Defaults(body, Obj(map[])).fields == body.fields;
  }

  lemma PromptOfLayers(snap: Snapshot, requested: string, service: Service)
    ensures var combined := Combined(ChatLayers(requested, service, RoleInForce(snap, requested)));
            (combined.systemPrompt, combined.position) == PromptInForce(snap, requested, service)
  {
    LayersInForce(snap, requested, service);
    CombinedPrompt(ChatLayers(requested, service, RoleInForce(snap, requested)));
  }

  lemma MessagesBesideModel(body: Json, requested: string, service: Service, role: Option<Role>)
    requires body.Obj?
    ensures Get(UpstreamBody(body, requested, service, role), "messages")
            == Get(Shaped(body, PolicyFor(requested, service, role)), "messages")
  {
  }

  // ---- What looks like Qwen3 -----------------------------------------------------------------

  predicate LetterOrDigit(c: char) {
    'a' <= c <= 'z' || 'A' <= c <= 'Z' || '0' <= c <= '9'
  }

  /** The letters and digits of a name, in lower case and in order. */
  lemma {:induction false} LettersAndDigits(a: string, b: string, c: char)
    ensures Alphanumeric(Text.Lower(a + b)) == Alphanumeric(Text.Lower(a)) + Alphanumeric(Text.Lower(b))
    ensures Alphanumeric(Text.Lower([c])) == if LetterOrDigit(c) then [Text.LowerChar(c)] else []
  {
    Text.LowerConcat(a, b);
    AlphanumericConcat(Text.Lower(a), Text.Lower(b));
    assert Text.Lower([c]) == [Text.LowerChar(c)];
  }

  lemma {:induction false} AlphanumericConcat(a: string, b: string)
    ensures Alphanumeric(a + b) == Alphanumeric(a) + Alphanumeric(b)
  {
    if a == "" {
      assert a + b == b;
    } else {
      assert (a + b)[0] == a[0] && (a + b)[1..] == a[1..] + b;
      AlphanumericConcat(a[1..], b);
    }
  }

  /** A name looks like Qwen3 if it begins so, whatever its case and punctuation,
      and whatever follows. */
  lemma QwenNames(prefix: string, rest: string)
    requires prefix in {"qwen3", "Qwen3", "QWEN-3", "qwen_3"}
    ensures LooksLikeQwen3(prefix + rest)
    ensures !LooksLikeQwen3("llama" + rest)
  {
    LettersAndDigits(prefix, rest, 'a');
    LettersAndDigits("llama", rest, 'a');
    Prefixes();
    assert ("llama" + Alphanumeric(Text.Lower(rest)))[0] == 'l';
  }

  lemma Prefixes()
    ensures Alphanumeric(Text.Lower("qwen3")) == "qwen3" && Alphanumeric(Text.Lower("Qwen3")) == "qwen3"
    ensures Alphanumeric(Text.Lower("QWEN-3")) == "qwen3" && Alphanumeric(Text.Lower("qwen_3")) == "qwen3"
    ensures Alphanumeric(Text.Lower("llama")) == "llama"
  {
    PlainPrefixes();
    SplitPrefixes();
  }

  lemma PlainPrefixes()
    ensures Alphanumeric(Text.Lower("qwen3")) == "qwen3" && Alphanumeric(Text.Lower("Qwen3")) == "qwen3"
    ensures Alphanumeric(Text.Lower("llama")) == "llama"
  {
    assert Text.Lower("qwen3") == "qwen3" && Text.Lower("Qwen3") == "qwen3" && Text.Lower("llama") == "llama";
  }

  lemma SplitPrefixes()
    ensures Alphanumeric(Text.Lower("QWEN-3")) == "qwen3" && Alphanumeric(Text.Lower("qwen_3")) == "qwen3"
  {
    assert Text.Lower("QWEN-3") == "qwen-3" && Text.Lower("qwen_3") == "qwen_3";
  }
}
