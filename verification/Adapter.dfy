/** The two directions of the Responses endpoint, and replaying its own output
    as history. */
module Adapter {
  import opened Common
  import opened Json
  import opened Responses

  // ==== Responses request to chat request ==========================================

  datatype Input = PlainText(text: string) | ItemList(items: seq<Item>) | OtherInput

  datatype Body = Body(
    model: Option<string>,
    continues: bool,               // previous_response_id, conversation or background is set
    format: Option<string>,        // type of text.format, if a format is given
    tools: seq<Tool>,
    instructions: string,
    input: Input,
    toolChoice: string,
    temperature: Option<Json>,
    maxOutputTokens: Option<Json>)

  datatype ChatRequest = ChatRequest(
    model: string,
    messages: seq<ChatMessage>,
    stream: bool,
    temperature: Json,
    maxTokens: Json,
    tools: seq<Definition>,
    toolChoice: Option<string>)

  type Translation = (ChatRequest, map<string, Target>)

  function InputItems(input: Input): Result<seq<Item>, Error> {
    match input
    case PlainText(text) => Ok([Message("user", Bare(text))])
    case ItemList(items) => Ok(items)
    case OtherInput => Err(BadInput)
  }

  function Instructions(body: Body): seq<ChatMessage> {
    if body.instructions == "" then [] else [Said("system", body.instructions)]
  }

  function OrElse(j: Option<Json>, default: Json): Json {
    if j.Some? then j.value else default
  }

  method ToChat(body: Body) returns (r: Result<Translation, Error>)
    ensures r == Translate(body)
  {
    if body.model.None? {
      return Err(ModelRequired);
    }
    if body.continues {
      return Err(HistoryUnsupported);
    }
    if body.format.Some? && body.format.value != "text" {
      return Err(StructuredOutput);
    }
    var tools := new ToolBuilder();
    var error := tools.AddTools(body.tools, "");
    if error.Some? {
      return Err(error.value);
    }
    var items: seq<Item>;
    match body.input {
      case PlainText(text) => items := [Message("user", Bare(text))];
      case ItemList(list) => items := list;
      case OtherInput => return Err(BadInput);
    }
    var messages := CollectMessages(Instructions(body), items);
    if messages.Err? {
      return Err(messages.error);
    }
    if body.toolChoice !in {"auto", "none", "required"} {
      return Err(NamedToolChoice);
    }
    var request := ChatRequest(body.model.value, messages.value, false, OrElse(body.temperature, Num(0.0)),
                               OrElse(body.maxOutputTokens, Num(2048.0)), tools.definitions,
                               if tools.definitions == [] then None else Some(body.toolChoice));
    return Ok((request, tools.mapping));
  }

  /** The loop over the input items; a call is appended to the last message in place. */
  method CollectMessages(before: seq<ChatMessage>, items: seq<Item>) returns (r: Result<seq<ChatMessage>, Error>)
    ensures r == AddItems(before, items)
  {
    var messages := before;
    for i := 0 to |items|
      invariant AddItems(before, items) == AddItems(messages, items[i..])
    {
      assert items[i..][0] == items[i] && items[i..][1..] == items[i + 1..];
      match Translated(items[i]) {
        case Err(e) => return Err(e);
        case Ok(None) =>
        case Ok(Some(m)) =>
          if m.Calls? && messages != [] && messages[|messages| - 1].Calls? {
            var last := messages[|messages| - 1];
            messages := messages[|messages| - 1 := Calls(last.calls + m.calls)];
          } else {
            messages := messages + [m];
          }
      }
    }
    return Ok(messages);
  }

  function Translate(body: Body): Result<Translation, Error> {
    if body.model.None? then Err(ModelRequired)
    else if body.continues then Err(HistoryUnsupported)
    else if body.format.Some? && body.format.value != "text" then Err(StructuredOutput)
    else
      match AddLeaves(NO_TOOLS, AllLeaves(body.tools, ""))
      case Err(e) => Err(e)
      case Ok(table) =>
        match InputItems(body.input)
        case Err(e) => Err(e)
        case Ok(items) =>
          match AddItems(Instructions(body), items)
          case Err(e) => Err(e)
          case Ok(messages) =>
            if body.toolChoice !in {"auto", "none", "required"} then Err(NamedToolChoice)
            else
              Ok((ChatRequest(body.model.value, messages, false, OrElse(body.temperature, Num(0.0)),
                              OrElse(body.maxOutputTokens, Num(2048.0)), table.definitions,
                              if table.definitions == [] then None else Some(body.toolChoice)),
                  table.mapping))
  }

  /** A request is accepted exactly when every part of it is. */
  lemma AcceptedIff(body: Body)
    ensures var leaves := AllLeaves(body.tools, "");
            Translate(body).Ok? <==>
              && body.model.Some? && !body.continues && (body.format.None? || body.format.value == "text")
              && AllUsable(leaves) && DistinctAliases(leaves)
              && InputItems(body.input).Ok?
              && ItemTurns(InputItems(body.input).value).Ok?
              && body.toolChoice in {"auto", "none", "required"}
  {
    AcceptedByParts(body);
    ToolsAcceptedIff(body.tools);
    if InputItems(body.input).Ok? {
      ItemsAcceptedIff(body, InputItems(body.input).value);
    }
  }

  lemma AcceptedByParts(body: Body)
    ensures Translate(body).Ok? <==>
              && body.model.Some? && !body.continues && (body.format.None? || body.format.value == "text")
              && AddLeaves(NO_TOOLS, AllLeaves(body.tools, "")).Ok?
              && InputItems(body.input).Ok?
              && AddItems(Instructions(body), InputItems(body.input).value).Ok?
              && body.toolChoice in {"auto", "none", "required"}
  {
  }

  lemma ItemsAcceptedIff(body: Body, items: seq<Item>)
    ensures AddItems(Instructions(body), items).Ok? <==> ItemTurns(items).Ok?
  {
    HistoryIsKept(Instructions(body), items);
  }

  /** Of an accepted request, the mapping is a bijection onto the tool leaves,
      and the messages are the instructions followed by exactly the
      non-reasoning items, coalesced; the rest is the client's own, or the
      adapter's default. */
  lemma AcceptedRequests(body: Body)
    requires Translate(body).Ok?
    ensures var (request, mapping) := Translate(body).value;
            && Tabulates(ToolTable(request.tools, mapping), AllLeaves(body.tools, ""))
            && InputItems(body.input).Ok? && ItemTurns(InputItems(body.input).value).Ok?
            && Turns(request.messages) == (if body.instructions == "" then [] else [Said("system", body.instructions)])
                                          + ItemTurns(InputItems(body.input).value).value
            && (body.input.ItemList? ==> InputItems(body.input).value == body.input.items)
            && (body.input.PlainText? ==> InputItems(body.input).value == [Message("user", Bare(body.input.text))])
            && Coalesced(request.messages)
            && body.model == Some(request.model)
            && request.stream == false
            && request.temperature == (if body.temperature.Some? then body.temperature.value else Num(0.0))
            && request.maxTokens == (if body.maxOutputTokens.Some? then body.maxOutputTokens.value else Num(2048.0))
            && request.toolChoice == (if request.tools == [] then None else Some(body.toolChoice))
  {
    AcceptedParts(body);
    AcceptedTools(body);
    AcceptedMessages(body, InputItems(body.input).value);
    AcceptedScalars(body);
  }

  lemma AcceptedScalars(body: Body)
    requires Translate(body).Ok?
    ensures var request := Translate(body).value.0;
            && body.model == Some(request.model)
            && request.stream == false
            && request.temperature == (if body.temperature.Some? then body.temperature.value else Num(0.0))
            && request.maxTokens == (if body.maxOutputTokens.Some? then body.maxOutputTokens.value else Num(2048.0))
            && request.toolChoice == (if request.tools == [] then None else Some(body.toolChoice))
  {
  }

  lemma AcceptedParts(body: Body)
    requires Translate(body).Ok?
    ensures InputItems(body.input).Ok?
    ensures AddItems(Instructions(body), InputItems(body.input).value) == Ok(Translate(body).value.0.messages)
    ensures Translate(body).value.0.toolChoice.Some? <==> Translate(body).value.0.tools != []
  {
  }

  lemma AcceptedMessages(body: Body, items: seq<Item>)
    requires AddItems(Instructions(body), items).Ok?
    ensures ItemTurns(items).Ok?
    ensures Turns(AddItems(Instructions(body), items).value) == Instructions(body) + ItemTurns(items).value
    ensures Coalesced(AddItems(Instructions(body), items).value)
  {
    InstructionTurns(body);
    HistoryIsKept(Instructions(body), items);
  }

  lemma AcceptedTools(body: Body)
    requires Translate(body).Ok?
    ensures var (request, mapping) := Translate(body).value;
            Tabulates(ToolTable(request.tools, mapping), AllLeaves(body.tools, ""))
  {
    ToolsAcceptedIff(body.tools);
  }

  lemma InstructionTurns(body: Body)
    ensures Turns(Instructions(body)) == Instructions(body)
  {
    if body.instructions != "" {
      assert Instructions(body)[..0] == [];
      assert Turns(Instructions(body)) == [] + [Said("system", body.instructions)];
    }
  }

  // ==== Chat reply to response ======================================================

  datatype Finish = Stop | ToolCalls | Length | OtherFinish

  /** An empty content is no content. */
  datatype Reply = Reply(finish: Finish, content: string, calls: seq<Call>)

  datatype OutItem =
    | MessageItem(id: string, status: string, text: string)
    | FunctionItem(id: string, status: string, callId: string, name: string, namespace: string, arguments: JsonText)
    | CustomItem(id: string, status: string, callId: string, name: string, namespace: string, input: string)

  datatype Response = Response(model: string, status: string, output: seq<OutItem>)

  function Converted(call: Call, mapping: map<string, Target>, id: string): Result<OutItem, Error> {
    if call.alias !in mapping then Err(UnknownTool)
    else
      var target := mapping[call.alias];
      match call.arguments
      case Malformed(_) => Err(MalformedArguments)
      case Encoded(value, _) =>
        if !value.Obj? then Err(NotAnObject)
        else if !target.custom then
          Ok(FunctionItem("fc_" + id, "completed", call.id, target.name, target.namespace, call.arguments))
        else if value.fields.Keys != {"input"} || !value.fields["input"].Str? then Err(NotOneInput)
        else
          Ok(CustomItem("fc_" + id, "completed", call.id, target.name, target.namespace, value.fields["input"].s))
  }

  /** `unique` supplies the unique part of the i-th item's id. */
  function ConvertedCalls(calls: seq<Call>, mapping: map<string, Target>, unique: nat -> string): Result<seq<OutItem>, Error> {
    if calls == [] then Ok([])
    else
      var n := |calls| - 1;
      match ConvertedCalls(calls[..n], mapping, unique)
      case Err(e) => Err(e)
      case Ok(items) =>
        match Converted(calls[n], mapping, unique(n))
        case Err(e) => Err(e)
        case Ok(item) => Ok(items + [item])
  }

  function TextItems(reply: Reply, unique: nat -> string): seq<OutItem> {
    if reply.content == "" then [] else [MessageItem("msg_" + unique(|reply.calls|), "completed", reply.content)]
  }

  function ResponseTo(reply: Reply, model: string, mapping: map<string, Target>, unique: nat -> string): Result<Response, Error> {
    if reply.finish.OtherFinish? then Err(UnsupportedFinish)
    else if reply.finish.Length? && reply.calls != [] then Err(TruncatedToolCall)
    else
      match ConvertedCalls(reply.calls, mapping, unique)
      case Err(e) => Err(e)
      case Ok(items) =>
        Ok(Response(model, if reply.finish.Length? then "incomplete" else "completed", TextItems(reply, unique) + items))
  }

  method FromChat(reply: Reply, model: string, mapping: map<string, Target>, unique: nat -> string)
    returns (r: Result<Response, Error>)
    ensures r == ResponseTo(reply, model, mapping, unique)
  {
    if reply.finish.OtherFinish? {
      return Err(UnsupportedFinish);
    }
    if reply.finish.Length? && reply.calls != [] {
      return Err(TruncatedToolCall);
    }
    var output: seq<OutItem> := [];
    if reply.content != "" {
      output := output + [MessageItem("msg_" + unique(|reply.calls|), "completed", reply.content)];
    }
    for i := 0 to |reply.calls|
      invariant ConvertedCalls(reply.calls[..i], mapping, unique).Ok?
      invariant output == TextItems(reply, unique) + ConvertedCalls(reply.calls[..i], mapping, unique).value
    {
      assert reply.calls[..i + 1][..i] == reply.calls[..i];
      match Converted(reply.calls[i], mapping, unique(i)) {
        case Err(e) =>
          FirstBadCallDecides(reply.calls, mapping, unique, i);
          return Err(e);
        case Ok(item) => output := output + [item];
      }
    }
    assert reply.calls[..|reply.calls|] == reply.calls;
    return Ok(Response(model, if reply.finish.Length? then "incomplete" else "completed", output));
  }

  lemma {:induction false} FirstBadCallDecides(calls: seq<Call>, mapping: map<string, Target>, unique: nat -> string, i: nat)
    requires i < |calls| && ConvertedCalls(calls[..i], mapping, unique).Ok? && Converted(calls[i], mapping, unique(i)).Err?
    ensures ConvertedCalls(calls, mapping, unique) == Err(Converted(calls[i], mapping, unique(i)).error)
    decreases |calls|
  {
    if i < |calls| - 1 {
      assert calls[..|calls| - 1][..i] == calls[..i];
      FirstBadCallDecides(calls[..|calls| - 1], mapping, unique, i);
    }
  }

  /** A reply is accepted exactly when it finished normally (or was cut off
      without calls) and every call is to a known tool with an object of
      arguments, and for a custom tool exactly one input string. */
  lemma {:induction false} CallsAcceptedIff(calls: seq<Call>, mapping: map<string, Target>, unique: nat -> string)
    ensures ConvertedCalls(calls, mapping, unique).Ok? <==>
              forall i | 0 <= i < |calls| :: Acceptable(calls[i], mapping)
    ensures ConvertedCalls(calls, mapping, unique).Ok? ==>
              var items := ConvertedCalls(calls, mapping, unique).value;
              |items| == |calls| && forall i | 0 <= i < |calls| :: Converted(calls[i], mapping, unique(i)) == Ok(items[i])
  {
    if calls != [] {
      CallsAcceptedIff(calls[..|calls| - 1], mapping, unique);
    }
  }

  ghost predicate Acceptable(call: Call, mapping: map<string, Target>) {
    && call.alias in mapping
    && call.arguments.Encoded? && call.arguments.value.Obj?
    && (mapping[call.alias].custom ==> exists s :: call.arguments.value == Obj(map["input" := Str(s)]))
  }

  // ==== Replaying a response as history ==============================================

  /** How a client sends an output item back as input. */
  function Replay(item: OutItem): Item {
    match item
    case MessageItem(_, _, text) => Message("assistant", Parts([TextPart(text)]))
    case FunctionItem(_, _, callId, name, namespace, arguments) => FunctionCall(callId, namespace, name, Some(arguments))
    case CustomItem(_, _, callId, name, namespace, input) => CustomCall(callId, namespace, name, input)
  }

  function ReplayAll(items: seq<OutItem>): seq<Item> {
    seq(|items|, i requires 0 <= i < |items| => Replay(items[i]))
  }

  /** Same id, same alias; the same text of arguments for a function tool, the
      same arguments as JSON for a custom tool. */
  predicate SameCall(sent: Call, replayed: Call, mapping: map<string, Target>) {
    && replayed.id == sent.id && replayed.alias == sent.alias && sent.alias in mapping
    && if mapping[sent.alias].custom
       then sent.arguments.Encoded? && replayed.arguments.Encoded? && replayed.arguments.value == sent.arguments.value
       else replayed.arguments == sent.arguments
  }

  function Replayed(call: Call, mapping: map<string, Target>): Call {
    if call.alias in mapping && mapping[call.alias].custom && call.arguments.Encoded?
    then call.(arguments := Dumps(call.arguments.value)) else call
  }

  function AllReplayed(calls: seq<Call>, mapping: map<string, Target>): seq<Call> {
    seq(|calls|, i requires 0 <= i < |calls| => Replayed(calls[i], mapping))
  }

  lemma ReplayedCallTranslates(call: Call, mapping: map<string, Target>, id: string)
    requires AliasesReadBack(mapping) && Converted(call, mapping, id).Ok?
    ensures Translated(Replay(Converted(call, mapping, id).value)) == Ok(Some(Calls([Replayed(call, mapping)])))
    ensures SameCall(call, Replayed(call, mapping), mapping)
  {
    if mapping[call.alias].custom {
      assert call.arguments.value.fields == map["input" := call.arguments.value.fields["input"]];
    }
  }

  /** A whole accepted reply, replayed, becomes one assistant text message (if
      there was text) and one message carrying all the calls. */
  function AsHistory(reply: Reply, mapping: map<string, Target>): seq<ChatMessage> {
    (if reply.content == "" then [] else [Said("assistant", reply.content)])
    + (if reply.calls == [] then [] else [Calls(AllReplayed(reply.calls, mapping))])
  }

  lemma {:induction false} ItemTurnsAre(items: seq<Item>, turns: seq<ChatMessage>)
    requires |turns| == |items| && forall i | 0 <= i < |items| :: Translated(items[i]) == Ok(Some(turns[i]))
    ensures ItemTurns(items) == Ok(turns)
  {
    if items != [] {
      ItemTurnsAre(items[1..], turns[1..]);
      assert turns == [turns[0]] + turns[1..];
    }
  }

  lemma CallsTranslate(calls: seq<Call>, mapping: map<string, Target>, unique: nat -> string)
    requires AliasesReadBack(mapping) && ConvertedCalls(calls, mapping, unique).Ok?
    ensures ItemTurns(ReplayAll(ConvertedCalls(calls, mapping, unique).value)) == Ok(Singles(AllReplayed(calls, mapping)))
    ensures forall i | 0 <= i < |calls| :: SameCall(calls[i], AllReplayed(calls, mapping)[i], mapping)
  {
    CallsAcceptedIff(calls, mapping, unique);
    forall i | 0 <= i < |calls|
      ensures Translated(Replay(Converted(calls[i], mapping, unique(i)).value)) == Ok(Some(Calls([Replayed(calls[i], mapping)])))
      ensures SameCall(calls[i], Replayed(calls[i], mapping), mapping)
    {
      ReplayedCallTranslates(calls[i], mapping, unique(i));
    }
    ItemTurnsAre(ReplayAll(ConvertedCalls(calls, mapping, unique).value), Singles(AllReplayed(calls, mapping)));
  }

  lemma TextTranslates(text: string, id: string)
    ensures Translated(Replay(MessageItem(id, "completed", text))) == Ok(Some(Said("assistant", text)))
  {
    var parts := [TextPart(text)];
    assert parts[1..] == [] && [text] + [] == [text];
    assert PartTexts(parts) == Ok([text]);
  }

  lemma OutputTranslates(reply: Reply, model: string, mapping: map<string, Target>, unique: nat -> string)
    requires AliasesReadBack(mapping) && ResponseTo(reply, model, mapping, unique).Ok?
    ensures ItemTurns(ReplayAll(ResponseTo(reply, model, mapping, unique).value.output)) ==
            Ok((if reply.content == "" then [] else [Said("assistant", reply.content)])
               + Singles(AllReplayed(reply.calls, mapping)))
    ensures forall i | 0 <= i < |reply.calls| :: SameCall(reply.calls[i], AllReplayed(reply.calls, mapping)[i], mapping)
  {
    var items := ConvertedCalls(reply.calls, mapping, unique).value;
    CallsTranslate(reply.calls, mapping, unique);
    if reply.content == "" {
      assert [] + items == items;
      assert [] + Singles(AllReplayed(reply.calls, mapping)) == Singles(AllReplayed(reply.calls, mapping));
    } else {
      TextTranslates(reply.content, "msg_" + unique(|reply.calls|));
      FirstItemTranslates(TextItems(reply, unique)[0], items, Said("assistant", reply.content));
    }
  }

  lemma FirstItemTranslates(first: OutItem, rest: seq<OutItem>, m: ChatMessage)
    requires Translated(Replay(first)) == Ok(Some(m)) && ItemTurns(ReplayAll(rest)).Ok?
    ensures ItemTurns(ReplayAll([first] + rest)) == Ok([m] + ItemTurns(ReplayAll(rest)).value)
  {
    var replay := ReplayAll([first] + rest);
    assert replay[0] == Replay(first) && replay[1..] == ReplayAll(rest);
  }

  lemma HistoryTurns(reply: Reply, mapping: map<string, Target>)
    ensures Coalesced(AsHistory(reply, mapping))
    ensures Turns(AsHistory(reply, mapping)) ==
            (if reply.content == "" then [] else [Said("assistant", reply.content)])
            + Singles(AllReplayed(reply.calls, mapping))
  {
    var said: seq<ChatMessage> := if reply.content == "" then [] else [Said("assistant", reply.content)];
    assert Turns(said) == said by {
      if said != [] {
        assert said[..0] == [] && Turns([]) + said == said;
      }
    }
    var history := AsHistory(reply, mapping);
    if reply.calls == [] {
      assert history == said && said + Singles(AllReplayed(reply.calls, mapping)) == said;
    } else {
      assert history[..|history| - 1] == said;
    }
  }

  /** The round trip: tools accepted by a request, a chat reply accepted under
      their mapping, its output replayed as the history of the next request.
      The upstream sees its own text and its own calls again, in one piece. */
  lemma ReplyRoundTrip(body: Body, reply: Reply, model: string, unique: nat -> string)
    requires Translate(body).Ok?
    requires ResponseTo(reply, model, Translate(body).value.1, unique).Ok?
    ensures var mapping := Translate(body).value.1;
            var output := ResponseTo(reply, model, mapping, unique).value.output;
            && AddItems([], ReplayAll(output)) == Ok(AsHistory(reply, mapping))
            && forall i | 0 <= i < |reply.calls| :: SameCall(reply.calls[i], AllReplayed(reply.calls, mapping)[i], mapping)
  {
    var mapping := Translate(body).value.1;
    AcceptedRequests(body);
    TabulatedReadsBack(ToolTable(Translate(body).value.0.tools, mapping), AllLeaves(body.tools, ""));
    OutputTranslates(reply, model, mapping, unique);
    HistoryTurns(reply, mapping);
    var items := ReplayAll(ResponseTo(reply, model, mapping, unique).value.output);
    HistoryIsKept([], items);
    var messages := AddItems([], items).value;
    assert Turns(messages) == Turns(AsHistory(reply, mapping));
    CoalescingIsCanonical(messages, AsHistory(reply, mapping));
  }
}
