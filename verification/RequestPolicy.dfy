/** Request shaping: merging layered policies, filling a request body with
    defaults, injecting a system prompt, and choosing the upstream asset. */
module RequestPolicy {
  import opened Common
  import opened Json
  import opened Entities
  import opened DeepMerge
  import Text

  // ---- Merging policy layers ----------------------------------------------

  const EMPTY := Policy(map[], "", Prepend)

  function Combine(combined: Policy, layer: Option<Policy>): Policy {
    match layer
    case None => combined
    case Some(p) =>
      var withDefaults := combined.(bodyDefaults := Override(Obj(combined.bodyDefaults), Obj(p.bodyDefaults)).fields);
      if p.systemPrompt == "" then withDefaults
      else withDefaults.(systemPrompt := p.systemPrompt, position := p.position)
  }

  /** The layers folded left to right, least specific first. */
  function Combined(layers: seq<Option<Policy>>): Policy {
    if layers == [] then EMPTY
    else Combine(Combined(layers[..|layers| - 1]), layers[|layers| - 1])
  }

  method MergeRequestPolicies(layers: seq<Option<Policy>>) returns (merged: Option<Policy>)
    ensures merged == if Combined(layers) == EMPTY then None else Some(Combined(layers))
  {
    var combined := EMPTY;
    for i := 0 to |layers|
      invariant combined == Combined(layers[..i])
    {
      assert layers[..i + 1][..i] == layers[..i];
      if layers[i].Some? {
        var p := layers[i].value;
        if p.bodyDefaults != map[] {
          var defaults := DeepMergeOverride(Obj(combined.bodyDefaults), Obj(p.bodyDefaults));
          combined := combined.(bodyDefaults := defaults.fields);
        } else {
          assert Override(Obj(combined.bodyDefaults), Obj(map[])).fields == combined.bodyDefaults;
        }
        if p.systemPrompt != "" {
          combined := combined.(systemPrompt := p.systemPrompt, position := p.position);
        }
      }
    }
    assert layers[..|layers|] == layers;
    CombinedPosition(layers);
    merged := if combined.bodyDefaults == map[] && combined.systemPrompt == "" then None else Some(combined);
  }

  /** A merged policy without a prompt never carries a position of its own. */
  lemma {:induction false} CombinedPosition(layers: seq<Option<Policy>>)
    ensures Combined(layers).systemPrompt == "" ==> Combined(layers).position == Prepend
  {
    if layers != [] {
      CombinedPosition(layers[..|layers| - 1]);
    }
  }

  predicate HasPrompt(layer: Option<Policy>) {
    layer.Some? && layer.value.systemPrompt != ""
  }

  /** The prompt of the merged policy is that of the most specific layer that
      has one, together with that same layer's position. */
  lemma {:induction false} MostSpecificPromptWins(layers: seq<Option<Policy>>, i: nat)
    requires i < |layers| && HasPrompt(layers[i])
    requires forall j | i < j < |layers| :: !HasPrompt(layers[j])
    ensures Combined(layers).systemPrompt == layers[i].value.systemPrompt
    ensures Combined(layers).position == layers[i].value.position
  {
    if i < |layers| - 1 {
      var front := layers[..|layers| - 1];
      MostSpecificPromptWins(front, i);
    }
  }

  /** A body filled from each layer in turn, most specific layer first. */
  function FillByLayers(body: Json, layers: seq<Option<Policy>>): Json
    decreases layers
  {
    if layers == [] then body
    else
      var last := layers[|layers| - 1];
      var filled := if last.Some? then Defaults(body, Obj(last.value.bodyDefaults)) else body;
      FillByLayers(filled, layers[..|layers| - 1])
  }

  /** No layer clashes with the layers below it on the body it reaches. */
  predicate NoLayerClash(body: Json, layers: seq<Option<Policy>>)
    decreases layers
  {
    layers == [] ||
    var front, last := layers[..|layers| - 1], layers[|layers| - 1];
    if last.None? then NoLayerClash(body, front)
    else
      && NoClash(Obj(Combined(front).bodyDefaults), Obj(last.value.bodyDefaults), body)
      && NoLayerClash(Defaults(body, Obj(last.value.bodyDefaults)), front)
  }

  /** The merged policy fills a body as its layers do one by one on exactly the
      bodies with which no layer clashes; otherwise the layers fill in more.
      Filling only ever adds, so a second clash cannot make up for a first. */
  lemma {:induction false} MergedPolicyFillsLikeLayers(body: Json, layers: seq<Option<Policy>>)
    ensures var merged := Defaults(body, Obj(Combined(layers).bodyDefaults));
            && (merged == FillByLayers(body, layers) <==> NoLayerClash(body, layers))
            && Within(merged, FillByLayers(body, layers))
    decreases layers
  {
    if layers == [] {
      assert body.Obj? ==> Defaults(body, Obj(map[])).fields == body.fields;
      WithinItself(body);
    } else {
      var front, last := layers[..|layers| - 1], layers[|layers| - 1];
      if last.None? {
        MergedPolicyFillsLikeLayers(body, front);
      } else {
        var specific, general := Obj(last.value.bodyDefaults), Obj(Combined(front).bodyDefaults);
        MergedPolicyFillsLikeLayers(Defaults(body, specific), front);
        LayeredDefaultsIff(body, specific, general);
        LayeringOnlyAdds(body, specific, general);
        WithinBetween(Defaults(body, Override(general, specific)), Defaults(Defaults(body, specific), general),
                      FillByLayers(body, layers));
      }
    }
  }

  lemma LayeringOnlyAdds(body: Json, specific: Json, general: Json)
    ensures Within(Defaults(body, Override(general, specific)), Defaults(Defaults(body, specific), general))
  {
    DefaultsIsFlippedOverride(body, Override(general, specific));
    DefaultsIsFlippedOverride(body, specific);
    DefaultsIsFlippedOverride(Defaults(body, specific), general);
    RegroupingOnlyAdds(general, specific, body);
  }

  lemma WithinBetween(x: Json, y: Json, z: Json)
    requires Within(x, y) && Within(y, z)
    ensures Within(x, z)
    ensures x == z <==> x == y && y == z
  {
    WithinChain(x, y, z);
    if x == z {
      WithinBothWays(x, y);
    }
  }

  // ---- System prompt injection --------------------------------------------

  function Get(message: Json, key: string): Json {
    if message.Obj? && key in message.fields then message.fields[key] else Null
  }

  predicate IsSystem(message: Json) {
    Get(message, "role") == Str("system")
  }

  predicate CarriesPrompt(message: Json, prompt: string) {
    IsSystem(message) && Get(message, "content") == Str(prompt)
  }

  function SystemMessage(prompt: string): Json {
    Obj(map["role" := Str("system"), "content" := Str(prompt)])
  }

  predicate PromptPresent(messages: seq<Json>, prompt: string) {
    exists i | 0 <= i < |messages| :: CarriesPrompt(messages[i], prompt)
  }

  /** Index of the first system message, or the length if there is none. */
  function FirstSystem(messages: seq<Json>): (i: nat)
    ensures i <= |messages|
    ensures i < |messages| ==> IsSystem(messages[i])
    ensures forall j | 0 <= j < i :: !IsSystem(messages[j])
  {
    if messages == [] then 0
    else if IsSystem(messages[0]) then 0
    else 1 + FirstSystem(messages[1..])
  }

  function Injected(messages: seq<Json>, prompt: string, position: Position): seq<Json> {
    if PromptPresent(messages, prompt) then messages
    else
      match position
      case Prepend => [SystemMessage(prompt)] + messages
      case Append => messages + [SystemMessage(prompt)]
      case Replace =>
        var i := FirstSystem(messages);
        if i < |messages| then messages[i := SystemMessage(prompt)] else [SystemMessage(prompt)] + messages
  }

  method ApplySystemPrompt(messages: seq<Json>, prompt: string, position: Position) returns (shaped: seq<Json>)
    ensures shaped == Injected(messages, prompt, position)
  {
    if exists i | 0 <= i < |messages| :: CarriesPrompt(messages[i], prompt) {
      return messages;
    }
    var injected := SystemMessage(prompt);
    match position {
      case Append => return messages + [injected];
      case Prepend => return [injected] + messages;
      case Replace =>
        for index := 0 to |messages|
          invariant forall j | 0 <= j < index :: !IsSystem(messages[j])
        {
          if IsSystem(messages[index]) {
            return messages[index := injected];
          }
        }
        return [injected] + messages;
    }
  }

  function Dicts(messages: seq<Json>): seq<Json> {
    if messages == [] then []
    else if messages[0].Obj? then [messages[0]] + Dicts(messages[1..])
    else Dicts(messages[1..])
  }

  function Shaped(body: Json, policy: Option<Policy>): Json
    requires body.Obj?
  {
    if policy.None? then body
    else
      var filled := Defaults(body, Obj(policy.value.bodyDefaults));
      if policy.value.systemPrompt == "" || !Get(filled, "messages").Arr? then filled
      else Obj(filled.fields["messages" :=
                 Arr(Injected(Dicts(filled.fields["messages"].items), policy.value.systemPrompt, policy.value.position))])
  }

  method ApplyRequestPolicy(body: Json, policy: Option<Policy>) returns (shaped: Json)
    requires body.Obj?
    ensures shaped == Shaped(body, policy)
  {
    if policy.None? {
      return body;
    }
    shaped := DeepMergeDefaults(body, Obj(policy.value.bodyDefaults));
    if policy.value.systemPrompt == "" {
      return;
    }
    if "messages" !in shaped.fields || !shaped.fields["messages"].Arr? {
      return;
    }
    var messages := ApplySystemPrompt(Dicts(shaped.fields["messages"].items), policy.value.systemPrompt, policy.value.position);
    shaped := Obj(shaped.fields["messages" := Arr(messages)]);
  }

  // ---- What injection keeps ------------------------------------------------

  lemma {:induction false} DictsStable(messages: seq<Json>)
    requires forall m | m in messages :: m.Obj?
    ensures Dicts(messages) == messages
  {
    if messages != [] {
      DictsStable(messages[1..]);
    }
  }

  lemma {:induction false} DictsAreObjects(messages: seq<Json>)
    ensures forall m | m in Dicts(messages) :: m.Obj?
  {
    if messages != [] {
      DictsAreObjects(messages[1..]);
    }
  }

  lemma InjectedHasPrompt(messages: seq<Json>, prompt: string, position: Position)
    ensures PromptPresent(Injected(messages, prompt, position), prompt)
  {
    var out := Injected(messages, prompt, position);
    if !PromptPresent(messages, prompt) {
      assert CarriesPrompt(SystemMessage(prompt), prompt);
      var i := match position
        case Prepend => 0
        case Append => |messages|
        case Replace => if FirstSystem(messages) < |messages| then FirstSystem(messages) else 0;
      assert out[i] == SystemMessage(prompt);
    }
  }

  /** Everything that is not a system message, in order. */
  function Conversation(messages: seq<Json>): seq<Json> {
    if messages == [] then []
    else if IsSystem(messages[0]) then Conversation(messages[1..])
    else [messages[0]] + Conversation(messages[1..])
  }

  lemma {:induction false} ConversationConcat(a: seq<Json>, b: seq<Json>)
    ensures Conversation(a + b) == Conversation(a) + Conversation(b)
  {
    if a == [] {
      assert a + b == b;
    } else {
      assert (a + b)[0] == a[0] && (a + b)[1..] == a[1..] + b;
      ConversationConcat(a[1..], b);
    }
  }

  /** Injection leaves the user, assistant and tool turns exactly as they were. */
  lemma InjectionKeepsConversation(messages: seq<Json>, prompt: string, position: Position)
    ensures Conversation(Injected(messages, prompt, position)) == Conversation(messages)
  {
    hide Conversation, PromptPresent;
    var s := SystemMessage(prompt);
    var i := FirstSystem(messages);
    assert IsSystem(s);
    InsertedAside([], s, messages, messages, [s] + messages);
    AppendedAside(messages, s);
    if i < |messages| {
      ExchangedAside(messages, i, s);
    }
  }

  lemma AppendedAside(messages: seq<Json>, system: Json)
    requires IsSystem(system)
    ensures Conversation(messages + [system]) == Conversation(messages)
  {
    assert messages + [] == messages && messages + [system] + [] == messages + [system];
    InsertedAside(messages, system, [], messages, messages + [system]);
  }

  lemma InsertedAside(before: seq<Json>, system: Json, after: seq<Json>, messages: seq<Json>, out: seq<Json>)
    requires IsSystem(system) && messages == before + after && out == before + [system] + after
    ensures Conversation(out) == Conversation(messages)
  {
    SystemAside(before, system, after);
  }

  lemma ExchangedAside(messages: seq<Json>, i: nat, system: Json)
    requires i < |messages| && IsSystem(messages[i]) && IsSystem(system)
    ensures Conversation(messages[i := system]) == Conversation(messages)
  {
    var before, after := messages[..i], messages[i + 1..];
    SystemAside(before, messages[i], after);
    SystemAside(before, system, after);
    assert before + [messages[i]] + after == messages;
    assert before + [system] + after == messages[i := system];
  }

  lemma SystemAside(before: seq<Json>, system: Json, after: seq<Json>)
    requires IsSystem(system)
    ensures Conversation(before + [system] + after) == Conversation(before + after)
  {
    assert Conversation([system]) == [] by { assert [system][1..] == []; }
    ConversationConcat(before + [system], after);
    ConversationConcat(before, [system]);
    ConversationConcat(before, after);
  }

  /** Nothing the client sent is lost except, when replacing, the first system
      message: the result is the input, the input with one message inserted,
      or the input with that one message exchanged. */
  predicate AtMostOneReplaced(before: seq<Json>, after: seq<Json>, prompt: string, position: Position) {
    || (after == before && PromptPresent(before, prompt))
    || (exists i | 0 <= i < |after| :: after[i] == SystemMessage(prompt) && after[..i] + after[i + 1..] == before)
    || (position == Replace && |after| == |before| &&
        exists i | 0 <= i < |before| ::
          && IsSystem(before[i]) && (forall j | 0 <= j < i :: !IsSystem(before[j]))
          && after[i] == SystemMessage(prompt)
          && after[..i] == before[..i] && after[i + 1..] == before[i + 1..])
  }

  lemma InjectionReplacesAtMostOne(messages: seq<Json>, prompt: string, position: Position)
    ensures AtMostOneReplaced(messages, Injected(messages, prompt, position), prompt, position)
  {
    var out := Injected(messages, prompt, position);
    if !PromptPresent(messages, prompt) {
      var f := FirstSystem(messages);
      if position == Replace && f < |messages| {
        assert out[f] == SystemMessage(prompt) && out[..f] == messages[..f] && out[f + 1..] == messages[f + 1..];
      } else {
        var i := if position == Append then |messages| else 0;
        assert out[i] == SystemMessage(prompt) && out[..i] + out[i + 1..] == messages;
      }
    }
  }

  // ---- What shaping a request keeps ----------------------------------------

  /** A value the client set outside `messages` is the value sent, and a path
      the client left open shows the policy's default. */
  lemma ShapingKeepsClientValues(body: Json, policy: Policy, path: seq<string>)
    requires body.Obj? && path != [] && path[0] != "messages"
    ensures Lookup(body, path).Some? && !Lookup(body, path).value.Obj? ==>
              Lookup(Shaped(body, Some(policy)), path) == Lookup(body, path)
    ensures Lookup(body, path).None? && !Blocked(body, path) ==>
              Lookup(Shaped(body, Some(policy)), path) == Lookup(Obj(policy.bodyDefaults), path)
    ensures Blocked(body, path) ==> Lookup(Shaped(body, Some(policy)), path) == None
  {
    var defaults := Obj(policy.bodyDefaults);
    var filled := Defaults(body, defaults);
    DefaultsIsFlippedOverride(body, defaults);
    OverrideAtPath(defaults, body, path);
    assert Lookup(Shaped(body, Some(policy)), path) == Lookup(filled, path);
    if Blocked(body, path) {
      BlockedIsUnreachable(body, path);
    }
  }

  lemma {:induction false} BlockedIsUnreachable(j: Json, path: seq<string>)
    requires Blocked(j, path)
    ensures Lookup(j, path) == None
  {
    if j.Obj? && path[0] in j.fields {
      BlockedIsUnreachable(j.fields[path[0]], path[1..]);
    }
  }

  /** Shaping an already shaped request changes nothing. */
  lemma ShapingIdempotent(body: Json, policy: Option<Policy>)
    requires body.Obj?
    ensures Shaped(Shaped(body, policy), policy) == Shaped(body, policy)
  {
    if policy.Some? {
      var p := policy.value;
      var defaults := Obj(p.bodyDefaults);
      var filled := Defaults(body, defaults);
      DefaultsIdempotent(body, defaults);
      if p.systemPrompt != "" && Get(filled, "messages").Arr? {
        var kept := Dicts(filled.fields["messages"].items);
        var messages := Injected(kept, p.systemPrompt, p.position);
        var once := Obj(filled.fields["messages" := Arr(messages)]);
        ReplacedLeafStaysFilled(filled, defaults, "messages", Arr(messages));
        DictsAreObjects(filled.fields["messages"].items);
        DictsStable(messages);
        InjectedHasPrompt(kept, p.systemPrompt, p.position);
        assert once.fields["messages" := Arr(messages)] == once.fields;
      }
    }
  }

  lemma ReplacedLeafStaysFilled(filled: Json, defaults: Json, key: string, leaf: Json)
    requires filled.Obj? && defaults.Obj? && Defaults(filled, defaults) == filled
    requires key in filled.fields && !leaf.Obj?
    ensures Defaults(Obj(filled.fields[key := leaf]), defaults) == Obj(filled.fields[key := leaf])
  {
    assert Defaults(filled, defaults).fields == filled.fields;
    assert Defaults(Obj(filled.fields[key := leaf]), defaults).fields == filled.fields[key := leaf];
  }

  // ---- Choosing the upstream asset -----------------------------------------

  function FirstAsset(assets: seq<Asset>, accept: Asset -> bool): Option<Asset> {
    if assets == [] then None
    else if accept(assets[0]) then Some(assets[0])
    else FirstAsset(assets[1..], accept)
  }

  function SelectTargetAsset(assets: seq<Asset>, requested: string): Option<Asset> {
    var named := FirstAsset(assets, (a: Asset) => a.assetId == requested);
    var loaded := FirstAsset(assets, (a: Asset) => a.loaded && a.assetId != "");
    if named.Some? then named
    else if loaded.Some? then loaded
    else FirstAsset(assets, (a: Asset) => a.assetId != "")
  }

  function IdsOf(assets: seq<Asset>, loadedOnly: bool): seq<string> {
    if assets == [] then []
    else if assets[0].assetId != "" && (loadedOnly ==> assets[0].loaded)
    then [assets[0].assetId] + IdsOf(assets[1..], loadedOnly)
    else IdsOf(assets[1..], loadedOnly)
  }

  function ChooseUpstreamModelId(requested: string, assets: seq<Asset>): string {
    var assetIds, loadedIds := IdsOf(assets, false), IdsOf(assets, true);
    if requested in assetIds then requested
    else if loadedIds != [] then loadedIds[0]
    else if assetIds != [] then assetIds[0]
    else requested
  }

  lemma {:induction false} FirstAssetFound(assets: seq<Asset>, accept: Asset -> bool)
    ensures FirstAsset(assets, accept).None? <==> forall a | a in assets :: !accept(a)
    ensures FirstAsset(assets, accept).Some? ==>
              FirstAsset(assets, accept).value in assets && accept(FirstAsset(assets, accept).value)
  {
    if assets != [] {
      FirstAssetFound(assets[1..], accept);
    }
  }

  lemma {:induction false} IdsOfIsFirstAsset(assets: seq<Asset>, loadedOnly: bool)
    ensures var accept := (a: Asset) => a.assetId != "" && (loadedOnly ==> a.loaded);
            var ids := IdsOf(assets, loadedOnly);
            && (ids == [] <==> FirstAsset(assets, accept).None?)
            && (ids != [] ==> ids[0] == FirstAsset(assets, accept).value.assetId)
            && (forall x :: x in ids <==> exists a | a in assets :: accept(a) && a.assetId == x)
  {
    if assets != [] {
      IdsOfIsFirstAsset(assets[1..], loadedOnly);
      var accept := (a: Asset) => a.assetId != "" && (loadedOnly ==> a.loaded);
      forall x ensures x in IdsOf(assets, loadedOnly) <==> exists a | a in assets :: accept(a) && a.assetId == x {
        if a :| a in assets && accept(a) && a.assetId == x {
          assert a == assets[0] || a in assets[1..];
        }
      }
    }
  }

  lemma {:induction false} FirstAssetExt(assets: seq<Asset>, p: Asset -> bool, q: Asset -> bool)
    requires forall a :: p(a) == q(a)
    ensures FirstAsset(assets, p) == FirstAsset(assets, q)
  {
    if assets != [] {
      FirstAssetExt(assets[1..], p, q);
    }
  }

  /** The asset whose policy shapes the request is the asset named upstream (or
      there is no asset and the requested name goes through), for exactly: every
      non-empty requested model, and the empty one unless the service mixes
      assets with and without an id. */
  lemma PolicyAssetIsUpstreamAssetIff(requested: string, assets: seq<Asset>)
    ensures (match SelectTargetAsset(assets, requested)
               case Some(a) => ChooseUpstreamModelId(requested, assets) == a.assetId
               case None => ChooseUpstreamModelId(requested, assets) == requested)
            <==>
            (|| requested != ""
             || (forall a | a in assets :: a.assetId != "")
             || (forall a | a in assets :: a.assetId == ""))
  {
    var isNamed := (a: Asset) => a.assetId == requested;
    var isLoaded := (a: Asset) => a.loaded && a.assetId != "";
    var hasId := (a: Asset) => a.assetId != "";
    FirstAssetFound(assets, isNamed);
    FirstAssetFound(assets, isLoaded);
    FirstAssetFound(assets, hasId);
    IdsOfIsFirstAsset(assets, false);
    IdsOfIsFirstAsset(assets, true);
    FirstAssetExt(assets, isLoaded, (a: Asset) => a.assetId != "" && (true ==> a.loaded));
    FirstAssetExt(assets, hasId, (a: Asset) => a.assetId != "" && (false ==> a.loaded));
  }

  // ---- The policy in force for a chat request -------------------------------

  function Alphanumeric(s: string): string {
    if s == [] then ""
    else if 'a' <= s[0] <= 'z' || '0' <= s[0] <= '9' then [s[0]] + Alphanumeric(s[1..])
    else Alphanumeric(s[1..])
  }

  predicate LooksLikeQwen3(identifier: string) {
    "qwen3" <= Alphanumeric(Text.Lower(identifier))
  }

  const THINKING_OFF := Policy(
    map["chat_template_kwargs" := Obj(map["enable_thinking" := Bool(false)])], "", Prepend)

  function InferChatRequestPolicy(requested: string, service: Service): Option<Policy> {
    if LooksLikeQwen3(requested) || LooksLikeQwen3(service.serviceId)
       || exists i | 0 <= i < |service.assets| :: LooksLikeQwen3(service.assets[i].assetId)
    then Some(THINKING_OFF) else None
  }

  /** Inferred, then the asset's, then the role's: least specific first. */
  function ChatLayers(requested: string, service: Service, role: Option<Role>): seq<Option<Policy>> {
    var asset := SelectTargetAsset(service.assets, requested);
    [InferChatRequestPolicy(requested, service),
     if asset.Some? then Some(asset.value.requestPolicy) else None,
     if role.Some? then Some(role.value.requestPolicy) else None]
  }

  function DefaultsOf(layer: Option<Policy>): Json {
    if layer.Some? then Obj(layer.value.bodyDefaults) else Obj(map[])
  }

  /** What a path of the merged defaults shows: the role's leaf, else the
      asset's, else the inferred one, as long as no more specific layer blocks it. */
  lemma ChatLayerPrecedence(requested: string, service: Service, role: Option<Role>, path: seq<string>)
    requires path != []
    ensures var layers := ChatLayers(requested, service, role);
            var merged := Obj(Combined(layers).bodyDefaults);
            var r, a, q := DefaultsOf(layers[2]), DefaultsOf(layers[1]), DefaultsOf(layers[0]);
            && (Lookup(r, path).Some? && !Lookup(r, path).value.Obj? ==> Lookup(merged, path) == Lookup(r, path))
            && (Lookup(r, path).None? && !Blocked(r, path) ==>
                  (Lookup(a, path).Some? && !Lookup(a, path).value.Obj? ==> Lookup(merged, path) == Lookup(a, path))
                  && (Lookup(a, path).None? && !Blocked(a, path) ==> Lookup(merged, path) == Lookup(q, path)))
  {
    var layers := ChatLayers(requested, service, role);
    var r, a, q := DefaultsOf(layers[2]), DefaultsOf(layers[1]), DefaultsOf(layers[0]);
    CombinedThree(layers);
    OverrideAtPath(q, a, path);
    OverrideAtPath(Override(q, a), r, path);
  }

  lemma CombinedThree(layers: seq<Option<Policy>>)
    requires |layers| == 3
    ensures Obj(Combined(layers).bodyDefaults)
            == Override(Override(DefaultsOf(layers[0]), DefaultsOf(layers[1])), DefaultsOf(layers[2]))
  {
    var one, two := layers[..1], layers[..2];
    assert layers[..|layers| - 1] == two && two[..|two| - 1] == one && one[..|one| - 1] == [];
    CombineIsOverride(Combined([]), layers[0]);
    CombineIsOverride(Combined(one), layers[1]);
    CombineIsOverride(Combined(two), layers[2]);
    assert Override(Obj(map[]), DefaultsOf(layers[0])).fields == DefaultsOf(layers[0]).fields;
  }

  lemma CombineIsOverride(combined: Policy, layer: Option<Policy>)
    ensures Obj(Combine(combined, layer).bodyDefaults) == Override(Obj(combined.bodyDefaults), DefaultsOf(layer))
  {
    if layer.None? {
      assert Override(Obj(combined.bodyDefaults), Obj(map[])).fields == combined.bodyDefaults;
    }
  }
}
