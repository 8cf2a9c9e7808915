/** The Responses adapter in detail: what single items, tools, calls and replies
    become, field by field. */
module AdapterDetails {
  import opened Common
  import opened Json
  import opened Responses
  import opened Adapter
  import Text

  // ---- Items ---------------------------------------------------------------------------

  lemma {:induction false} TurnsConcat(a: seq<Item>, b: seq<Item>)
    ensures ItemTurns(a + b) ==
            match (ItemTurns(a), ItemTurns(b)) {
              case (Err(e), _) => Err(e)
              case (Ok(x), Err(e)) => Err(e)
              case (Ok(x), Ok(y)) => Ok(x + y)
            }
  {
    if a == [] {
      assert a + b == b;
      assert forall y: seq<ChatMessage> :: [] + y == y;
    } else {
      assert (a + b)[0] == a[0] && (a + b)[1..] == a[1..] + b;
      TurnsConcat(a[1..], b);
      assert forall x: seq<ChatMessage>, y: seq<ChatMessage>, z: seq<ChatMessage> :: x + y + z == x + (y + z);
    }
  }

  lemma {:induction false} AllTexts(parts: seq<Part>)
    ensures (exists p | p in parts :: p.OtherPart?) ==> PartTexts(parts) == Err(BadContent)
    ensures (forall p | p in parts :: p.TextPart?) ==>
              PartTexts(parts).Ok? && |PartTexts(parts).value| == |parts|
              && forall i | 0 <= i < |parts| :: PartTexts(parts).value[i] == parts[i].text
  {
    if parts != [] {
      var rest := parts[1..];
      AllTexts(rest);
      assert parts == [parts[0]] + rest;
      if forall p | p in parts :: p.TextPart? {
        assert parts[0].TextPart? && forall p | p in rest :: p.TextPart?;
        assert PartTexts(parts) == Ok([parts[0].text] + PartTexts(rest).value);
        assert forall i | 0 < i < |parts| :: parts[i] == rest[i - 1];
      }
    }
  }

  /** The text of a content: itself, or its text parts on lines of their own;
      anything but text is refused. */
  lemma ContentText(content: Content, texts: seq<string>)
    requires content.Parts? ==> |texts| == |content.parts|
    ensures content.Bare? ==> TextContent(content) == Ok(content.text)
    ensures content.Parts? && (forall i | 0 <= i < |texts| :: content.parts[i] == TextPart(texts[i])) ==>
              TextContent(content) == Ok(Text.Join(texts, "\n"))
    ensures content.Parts? && (exists p | p in content.parts :: p.OtherPart?) ==> TextContent(content) == Err(BadContent)
  {
    if content.Parts? {
      AllTexts(content.parts);
      if forall i | 0 <= i < |texts| :: content.parts[i] == TextPart(texts[i]) {
        assert forall p | p in content.parts :: p.TextPart?;
        assert PartTexts(content.parts).value == texts;
      }
    }
  }

  /** What a single item adds to the conversation. */
  lemma OneItem(item: Item)
    ensures match item
            case Message(role, content) =>
              if !TextContent(content).Ok? || role !in {"system", "developer", "user", "assistant"} then ItemTurns([item]).Err?
              else ItemTurns([item]) == Ok([Said(if role == "developer" then "system" else role, TextContent(content).value)])
            case FunctionCall(id, namespace, name, arguments) =>
              ItemTurns([item]) == Ok([Calls([Call(id, if namespace == "" then name else namespace + "__" + name,
                                                   if arguments.Some? then arguments.value else Dumps(Obj(map[])))])])
            case CustomCall(id, namespace, name, input) =>
              ItemTurns([item]) == Ok([Calls([Call(id, if namespace == "" then name else namespace + "__" + name,
                                                   Dumps(Obj(map["input" := Str(input)])))])])
            case CallOutput(id, content) =>
              if TextContent(content).Err? then ItemTurns([item]).Err?
              else ItemTurns([item]) == Ok([ToolResult(id, TextContent(content).value)])
            case Reasoning => ItemTurns([item]) == Ok([])
            case OtherItem(kind) => ItemTurns([item]) == Err(UnsupportedItem(kind))
  {
    assert [item][1..] == [];
    var none: seq<ChatMessage> := [];
    assert ItemTurns([]) == Ok(none) && none + none == none;
    assert forall m: ChatMessage :: [m] + [] == [m];
  }

  // ---- Tools -----------------------------------------------------------------------------

  lemma {:induction false} LeavesConcat(a: seq<Tool>, b: seq<Tool>, namespace: string)
    ensures AllLeaves(a + b, namespace) == AllLeaves(a, namespace) + AllLeaves(b, namespace)
  {
    if a == [] {
      assert a + b == b;
    } else {
      assert (a + b)[0] == a[0] && (a + b)[1..] == a[1..] + b;
      LeavesConcat(a[1..], b, namespace);
    }
  }

  /** A namespace replaces any around it: its tools are the same leaves wherever it stands. */
  lemma InnermostNamespaceCounts(name: string, tools: seq<Tool>, outer: string)
    ensures AllLeaves([Namespace(name, tools)], outer) == AllLeaves(tools, name)
    ensures AllLeaves([Namespace(outer, [Namespace(name, tools)])], "") == AllLeaves(tools, name)
  {
    SingleLeaves(Namespace(name, tools), outer);
    SingleLeaves(Namespace(outer, [Namespace(name, tools)]), "");
  }

  lemma SingleLeaves(tool: Tool, namespace: string)
    ensures AllLeaves([tool], namespace) == Leaves(tool, namespace)
  {
    assert [tool][1..] == [] && AllLeaves([], namespace) == [];
  }

  /** How one tool is offered upstream and what its alias stands for. */
  lemma OneTool(custom: bool, name: string, description: string, parameters: Option<Json>, namespace: string)
    ensures var tool := Plain(custom, name, description, parameters);
            var offered := Definition(
              if namespace == "" then name else namespace + "__" + name,
              if custom then description + "\nSupply the exact raw tool input in the input string." else description,
              if custom then
                Obj(map["type" := Str("object"),
                        "properties" := Obj(map["input" := Obj(map["type" := Str("string")])]),
                        "required" := Arr([Str("input")]),
                        "additionalProperties" := Bool(false)])
              else if parameters.Some? then parameters.value
              else Obj(map["type" := Str("object"), "properties" := Obj(map[])]));
            AllLeaves([tool], namespace) == [Usable(Target(custom, name, namespace), offered)]
  {
    SingleLeaves(Plain(custom, name, description, parameters), namespace);
  }

  // ---- Replies ---------------------------------------------------------------------------

  /** The output item a call becomes. */
  predicate ItemOfCall(item: OutItem, call: Call, target: Target) {
    match item
    case FunctionItem(_, status, callId, name, namespace, arguments) =>
      && !target.custom && status == "completed" && callId == call.id
      && name == target.name && namespace == target.namespace && arguments == call.arguments
    case CustomItem(_, status, callId, name, namespace, input) =>
      && target.custom && status == "completed" && callId == call.id
      && name == target.name && namespace == target.namespace
      && call.arguments.Encoded? && call.arguments.value == Obj(map["input" := Str(input)])
    case MessageItem(_, _, _) => false
  }

  lemma ConvertedItem(call: Call, mapping: map<string, Target>, id: string)
    requires Converted(call, mapping, id).Ok?
    ensures call.alias in mapping && ItemOfCall(Converted(call, mapping, id).value, call, mapping[call.alias])
  {
    if mapping[call.alias].custom {
      assert call.arguments.value.fields == map["input" := call.arguments.value.fields["input"]];
    }
  }

  /** A reply is accepted exactly when it stopped in a known way, was not cut off
      in its calls, and every call is usable; the response then carries the
      model, says whether it was cut off, and has the text first, if any, and
      then one item for each call. */
  lemma ReplyMeaning(reply: Reply, model: string, mapping: map<string, Target>, unique: nat -> string)
    ensures ResponseTo(reply, model, mapping, unique).Ok? <==>
              && !reply.finish.OtherFinish? && (reply.finish.Length? ==> reply.calls == [])
              && forall i | 0 <= i < |reply.calls| :: Acceptable(reply.calls[i], mapping)
    ensures ResponseTo(reply, model, mapping, unique).Ok? ==>
              var response := ResponseTo(reply, model, mapping, unique).value;
              var said := if reply.content == "" then 0 else 1;
              && response.model == model
              && response.status == (if reply.finish == Length then "incomplete" else "completed")
              && |response.output| == said + |reply.calls|
              && (said == 1 ==> response.output[0].MessageItem? && response.output[0].status == "completed"
                                && response.output[0].text == reply.content)
              && forall i | 0 <= i < |reply.calls| ::
                   reply.calls[i].alias in mapping
                   && ItemOfCall(response.output[said + i], reply.calls[i], mapping[reply.calls[i].alias])
  {
    CallsAcceptedIff(reply.calls, mapping, unique);
    if ResponseTo(reply, model, mapping, unique).Ok? {
      forall i | 0 <= i < |reply.calls|
        ensures reply.calls[i].alias in mapping
        ensures ItemOfCall(ConvertedCalls(reply.calls, mapping, unique).value[i], reply.calls[i], mapping[reply.calls[i].alias])
      {
        ConvertedItem(reply.calls[i], mapping, unique(i));
      }
    }
  }

  // ---- Refusals --------------------------------------------------------------------------

  /** The first refused or repeated leaf decides what is wrong with the tools. */
  lemma {:induction false} FirstBadLeafDecides(table: ToolTable, leaves: seq<Leaf>, i: nat)
    requires i < |leaves| && AddLeaves(table, leaves[..i]).Ok?
    ensures leaves[i].Refused? ==> AddLeaves(table, leaves) == Err(UnsupportedTool(leaves[i].kind))
    ensures leaves[i].Usable? && AliasOf(leaves[i].target) in AddLeaves(table, leaves[..i]).value.mapping ==>
              AddLeaves(table, leaves) == Err(DuplicateTool)
  {
    AddLeavesConcat(table, leaves[..i], leaves[i..]);
    assert leaves == leaves[..i] + leaves[i..];
  }

  /** What is wrong with a refused request: the first of these that applies. */
  lemma RefusedRequests(body: Body)
    requires Translate(body).Err?
    ensures var error, leaves := Translate(body).error, AllLeaves(body.tools, "");
            if body.model.None? then error == ModelRequired
            else if body.continues then error == HistoryUnsupported
            else if body.format.Some? && body.format.value != "text" then error == StructuredOutput
            else if !(AllUsable(leaves) && DistinctAliases(leaves)) then
              AddLeaves(NO_TOOLS, leaves) == Err(error) && (error.UnsupportedTool? || error == DuplicateTool)
            else if body.input.OtherInput? then error == BadInput
            else if body.input.ItemList? && ItemTurns(body.input.items).Err? then error == ItemTurns(body.input.items).error
            else error == NamedToolChoice && body.toolChoice !in {"auto", "none", "required"}
  {
    ToolsAcceptedIff(body.tools);
    LeafErrors(NO_TOOLS, AllLeaves(body.tools, ""));
    if InputItems(body.input).Ok? {
      HistoryIsKept(Instructions(body), InputItems(body.input).value);
    }
    if body.input.PlainText? {
      OneItem(Message("user", Bare(body.input.text)));
    }
  }

  lemma {:induction false} LeafErrors(table: ToolTable, leaves: seq<Leaf>)
    ensures AddLeaves(table, leaves).Err? ==> AddLeaves(table, leaves).error.UnsupportedTool? || AddLeaves(table, leaves).error == DuplicateTool
    decreases leaves
  {
    if leaves != [] && leaves[0].Usable? && AliasOf(leaves[0].target) !in table.mapping {
      LeafErrors(ToolTable(table.definitions + [leaves[0].definition], table.mapping[AliasOf(leaves[0].target) := leaves[0].target]),
                 leaves[1..]);
    }
  }

  /** What is wrong with a refused reply, and with an unusable call. */
  lemma RefusedReplies(reply: Reply, model: string, mapping: map<string, Target>, unique: nat -> string, call: Call, id: string)
    ensures ResponseTo(reply, model, mapping, unique).Err? ==>
              ResponseTo(reply, model, mapping, unique).error ==
              if reply.finish == OtherFinish then UnsupportedFinish
              else if reply.finish == Length && reply.calls != [] then TruncatedToolCall
              else ConvertedCalls(reply.calls, mapping, unique).error
    ensures Converted(call, mapping, id).Err? ==>
              Converted(call, mapping, id).error ==
              if call.alias !in mapping then UnknownTool
              else if call.arguments.Malformed? then MalformedArguments
              else if !call.arguments.value.Obj? then NotAnObject
              else NotOneInput
  {
  }
}
