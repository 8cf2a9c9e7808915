/** The Responses adapter: requests translated to chat requests, chat replies
    translated back, and the round trip between the two. */
module Responses {
  import opened Common
  import opened Json
  import Text

  /** JSON text: either one of the spellings of a document, or not JSON. */
  datatype JsonText = Encoded(value: Json, spelling: nat) | Malformed(raw: string)

  function Dumps(value: Json): JsonText { Encoded(value, 0) }

  datatype Error =
    | ModelRequired
    | HistoryUnsupported
    | StructuredOutput
    | UnsupportedTool(kind: string)
    | DuplicateTool
    | BadInput
    | BadContent
    | BadRole
    | UnsupportedItem(kind: string)
    | NamedToolChoice
    | UnsupportedFinish
    | TruncatedToolCall
    | UnknownTool
    | MalformedArguments
    | NotAnObject
    | NotOneInput

  // ==== Tools ==================================================================

  datatype Tool =
    | Namespace(name: string, tools: seq<Tool>)
    | Plain(custom: bool, name: string, description: string, parameters: Option<Json>)
    | OtherTool(kind: string)

  /** What an alias stands for; the empty namespace is none. */
  datatype Target = Target(custom: bool, name: string, namespace: string)

  datatype Definition = Definition(alias: string, description: string, parameters: Json)

  datatype ToolTable = ToolTable(definitions: seq<Definition>, mapping: map<string, Target>)

  const NO_TOOLS := ToolTable([], map[])

  function Alias(namespace: string, name: string): string {
    if namespace == "" then name else namespace + "__" + name
  }

  function AliasOf(t: Target): string { Alias(t.namespace, t.name) }

  const CUSTOM_SCHEMA := Obj(map[
    "type" := Str("object"),
    "properties" := Obj(map["input" := Obj(map["type" := Str("string")])]),
    "required" := Arr([Str("input")]),
    "additionalProperties" := Bool(false)])

  function DefinitionFor(alias: string, tool: Tool): Definition
    requires tool.Plain?
  {
    if tool.custom then
      Definition(alias, tool.description + "\nSupply the exact raw tool input in the input string.", CUSTOM_SCHEMA)
    else
      Definition(alias, tool.description,
                 match tool.parameters
                 case Some(p) => p
                 case None => Obj(map["type" := Str("object"), "properties" := Obj(map[])]))
  }

  /** A leaf of the tool tree: a usable tool, or one that is refused. */
  datatype Leaf = Usable(target: Target, definition: Definition) | Refused(kind: string)

  /** The leaves in pre-order, each under its innermost namespace. */
  function Leaves(tool: Tool, namespace: string): seq<Leaf>
    decreases tool, 1
  {
    match tool
    case Namespace(name, tools) => AllLeaves(tools, name)
    case Plain(custom, name, _, _) =>
      [Usable(Target(custom, name, namespace), DefinitionFor(Alias(namespace, name), tool))]
    case OtherTool(kind) => [Refused(kind)]
  }

  function AllLeaves(tools: seq<Tool>, namespace: string): seq<Leaf>
    decreases tools, 0
  {
    if tools == [] then [] else Leaves(tools[0], namespace) + AllLeaves(tools[1..], namespace)
  }

  /** Adding leaves one by one; the first refused or repeated one stops it. */
  function AddLeaves(table: ToolTable, leaves: seq<Leaf>): Result<ToolTable, Error>
    decreases leaves
  {
    if leaves == [] then Ok(table)
    else
      match leaves[0]
      case Refused(kind) => Err(UnsupportedTool(kind))
      case Usable(target, definition) =>
        if AliasOf(target) in table.mapping then Err(DuplicateTool)
        else AddLeaves(ToolTable(table.definitions + [definition], table.mapping[AliasOf(target) := target]), leaves[1..])
  }

  class ToolBuilder {
    var definitions: seq<Definition>
    var mapping: map<string, Target>

    constructor ()
      ensures Table() == NO_TOOLS
    {
      definitions, mapping := [], map[];
    }

    function Table(): ToolTable
      reads this
    {
      ToolTable(definitions, mapping)
    }

    /** Recursive over namespaces; an error leaves the table half built. */
    method AddTool(tool: Tool, namespace: string) returns (error: Option<Error>)
      modifies this
      ensures match AddLeaves(old(Table()), Leaves(tool, namespace))
              case Ok(t) => error == None && Table() == t
              case Err(e) => error == Some(e)
      decreases tool, 1
    {
      match tool {
        case Namespace(name, tools) =>
          error := AddTools(tools, name);
        case OtherTool(kind) =>
          return Some(UnsupportedTool(kind));
        case Plain(custom, name, _, _) =>
          var alias := Alias(namespace, name);
          if alias in mapping {
            return Some(DuplicateTool);
          }
          mapping := mapping[alias := Target(custom, name, namespace)];
          definitions := definitions + [DefinitionFor(alias, tool)];
          return None;
      }
    }

    method AddTools(tools: seq<Tool>, namespace: string) returns (error: Option<Error>)
      modifies this
      ensures match AddLeaves(old(Table()), AllLeaves(tools, namespace))
              case Ok(t) => error == None && Table() == t
              case Err(e) => error == Some(e)
      decreases tools, 0
    {
      for i := 0 to |tools|
        invariant AddLeaves(old(Table()), AllLeaves(tools, namespace)) == AddLeaves(Table(), AllLeaves(tools[i..], namespace))
      {
        assert tools[i..][0] == tools[i] && tools[i..][1..] == tools[i + 1..];
        AddLeavesConcat(Table(), Leaves(tools[i], namespace), AllLeaves(tools[i + 1..], namespace));
        error := AddTool(tools[i], namespace);
        if error.Some? {
          return;
        }
      }
      return None;
    }
  }

  lemma {:induction false} AddLeavesConcat(table: ToolTable, a: seq<Leaf>, b: seq<Leaf>)
    ensures AddLeaves(table, a + b) ==
            match AddLeaves(table, a)
            case Ok(t) => AddLeaves(t, b)
            case Err(e) => Err(e)
    decreases a
  {
    if a == [] {
      assert a + b == b;
    } else {
      assert (a + b)[0] == a[0] && (a + b)[1..] == a[1..] + b;
      if a[0].Usable? && AliasOf(a[0].target) !in table.mapping {
        var next := ToolTable(table.definitions + [a[0].definition], table.mapping[AliasOf(a[0].target) := a[0].target]);
        AddLeavesConcat(next, a[1..], b);
      }
    }
  }

  predicate AllUsable(leaves: seq<Leaf>) {
    forall i | 0 <= i < |leaves| :: leaves[i].Usable?
  }

  predicate DistinctAliases(leaves: seq<Leaf>)
    requires AllUsable(leaves)
  {
    forall i, j | 0 <= i < j < |leaves| :: AliasOf(leaves[i].target) != AliasOf(leaves[j].target)
  }

  predicate Unclaimed(table: ToolTable, leaves: seq<Leaf>)
    requires AllUsable(leaves)
  {
    forall i | 0 <= i < |leaves| :: AliasOf(leaves[i].target) !in table.mapping
  }

  /** The table holds exactly these leaves, in order, and nothing else. */
  predicate Tabulates(table: ToolTable, leaves: seq<Leaf>) {
    && AllUsable(leaves)
    && |table.definitions| == |leaves|
    && (forall i | 0 <= i < |leaves| :: table.definitions[i] == leaves[i].definition)
    && (forall i | 0 <= i < |leaves| :: AliasOf(leaves[i].target) in table.mapping
                                        && table.mapping[AliasOf(leaves[i].target)] == leaves[i].target)
    && (forall a | a in table.mapping :: exists i | 0 <= i < |leaves| :: AliasOf(leaves[i].target) == a)
  }

  lemma {:induction false} AddLeavesExtends(table: ToolTable, known: seq<Leaf>, leaves: seq<Leaf>)
    requires Tabulates(table, known)
    ensures AddLeaves(table, leaves).Ok? <==> AllUsable(leaves) && DistinctAliases(leaves) && Unclaimed(table, leaves)
    ensures AddLeaves(table, leaves).Ok? ==> Tabulates(AddLeaves(table, leaves).value, known + leaves)
    decreases leaves
  {
    if leaves == [] {
      assert known + leaves == known;
    } else {
      var rest := leaves[1..];
      assert AllUsable(leaves) ==> AllUsable(rest) && leaves[0].Usable?;
      if leaves[0].Usable? && AliasOf(leaves[0].target) !in table.mapping {
        var next := ToolTable(table.definitions + [leaves[0].definition], table.mapping[AliasOf(leaves[0].target) := leaves[0].target]);
        TabulatesOneMore(table, known, leaves[0]);
        AddLeavesExtends(next, known + [leaves[0]], rest);
        assert known + [leaves[0]] + rest == known + leaves;
        AliasesStep(table, next, leaves);
      }
    }
  }

  lemma TabulatesOneMore(table: ToolTable, known: seq<Leaf>, leaf: Leaf)
    requires Tabulates(table, known) && leaf.Usable? && AliasOf(leaf.target) !in table.mapping
    ensures Tabulates(ToolTable(table.definitions + [leaf.definition], table.mapping[AliasOf(leaf.target) := leaf.target]), known + [leaf])
  {
    var mapping, all := table.mapping[AliasOf(leaf.target) := leaf.target], known + [leaf];
    forall a | a in mapping ensures exists i | 0 <= i < |all| :: AliasOf(all[i].target) == a {
      if a == AliasOf(leaf.target) {
        assert AliasOf(all[|known|].target) == a;
      } else {
        var i :| 0 <= i < |known| && AliasOf(known[i].target) == a;
        assert AliasOf(all[i].target) == a;
      }
    }
  }

  lemma AliasesStep(table: ToolTable, next: ToolTable, leaves: seq<Leaf>)
    requires leaves != [] && leaves[0].Usable? && AliasOf(leaves[0].target) !in table.mapping
    requires next.mapping == table.mapping[AliasOf(leaves[0].target) := leaves[0].target]
    ensures AllUsable(leaves) <==> AllUsable(leaves[1..])
    ensures AllUsable(leaves) ==>
              (DistinctAliases(leaves) && Unclaimed(table, leaves)
               <==> DistinctAliases(leaves[1..]) && Unclaimed(next, leaves[1..]))
  {
    var rest := leaves[1..];
    assert forall i | 0 <= i < |rest| :: rest[i] == leaves[i + 1];
    assert forall i | 1 <= i < |leaves| :: leaves[i] == rest[i - 1];
    if AllUsable(rest) && DistinctAliases(rest) && Unclaimed(next, rest) {
      forall i, j | 0 <= i < j < |leaves| ensures AliasOf(leaves[i].target) != AliasOf(leaves[j].target) {
        if i > 0 { assert AliasOf(rest[i - 1].target) != AliasOf(rest[j - 1].target); }
      }
    }
  }

  /** A tool list is accepted exactly when every leaf is a function or custom
      tool and no two leaves share an alias; then the mapping is a bijection
      between the aliases and the leaves, which are defined in pre-order. */
  lemma ToolsAcceptedIff(tools: seq<Tool>)
    ensures var leaves := AllLeaves(tools, "");
            && (AddLeaves(NO_TOOLS, leaves).Ok? <==> AllUsable(leaves) && DistinctAliases(leaves))
            && (AddLeaves(NO_TOOLS, leaves).Ok? ==> Tabulates(AddLeaves(NO_TOOLS, leaves).value, leaves))
  {
    AddLeavesExtends(NO_TOOLS, [], AllLeaves(tools, ""));
    assert [] + AllLeaves(tools, "") == AllLeaves(tools, "");
  }

  /** An alias can be read back from what it stands for, so the mapping is injective. */
  predicate AliasesReadBack(mapping: map<string, Target>) {
    forall a | a in mapping :: AliasOf(mapping[a]) == a
  }

  lemma TabulatedReadsBack(table: ToolTable, leaves: seq<Leaf>)
    requires Tabulates(table, leaves)
    ensures AliasesReadBack(table.mapping)
    ensures forall a, b | a in table.mapping && b in table.mapping && table.mapping[a] == table.mapping[b] :: a == b
  {
  }

  // ==== Input history =============================================================

  datatype Part = TextPart(text: string) | OtherPart

  datatype Content = Bare(text: string) | Parts(parts: seq<Part>) | NoContent

  datatype Item =
    | Message(role: string, content: Content)
    | FunctionCall(callId: string, namespace: string, name: string, arguments: Option<JsonText>)
    | CustomCall(callId: string, namespace: string, name: string, input: string)
    | CallOutput(callId: string, content: Content)
    | Reasoning
    | OtherItem(kind: string)

  datatype Call = Call(id: string, alias: string, arguments: JsonText)

  datatype ChatMessage =
    | Said(role: string, text: string)
    | Calls(calls: seq<Call>)
    | ToolResult(callId: string, text: string)

  function PartTexts(parts: seq<Part>): Result<seq<string>, Error> {
    if parts == [] then Ok([])
    else if parts[0].OtherPart? then Err(BadContent)
    else
      match PartTexts(parts[1..])
      case Ok(rest) => Ok([parts[0].text] + rest)
      case Err(e) => Err(e)
  }

  function TextContent(content: Content): Result<string, Error> {
    match content
    case Bare(text) => Ok(text)
    case NoContent => Err(BadContent)
    case Parts(parts) =>
      (match PartTexts(parts)
       case Ok(texts) => Ok(Text.Join(texts, "\n"))
       case Err(e) => Err(e))
  }

  /** What one item contributes: nothing, one message, or one call. */
  function Translated(item: Item): Result<Option<ChatMessage>, Error> {
    match item
    case Message(role, content) =>
      if role !in {"system", "developer", "user", "assistant"} then Err(BadRole)
      else
        (match TextContent(content)
         case Ok(text) => Ok(Some(Said(if role == "developer" then "system" else role, text)))
         case Err(e) => Err(e))
    case FunctionCall(id, namespace, name, arguments) =>
      var text := if arguments.Some? then arguments.value else Dumps(Obj(map[]));
      Ok(Some(Calls([Call(id, Alias(namespace, name), text)])))
    case CustomCall(id, namespace, name, input) =>
      Ok(Some(Calls([Call(id, Alias(namespace, name), Dumps(Obj(map["input" := Str(input)])))])))
    case CallOutput(id, content) =>
      (match TextContent(content)
       case Ok(text) => Ok(Some(ToolResult(id, text)))
       case Err(e) => Err(e))
    case Reasoning => Ok(None)
    case OtherItem(kind) => Err(UnsupportedItem(kind))
  }

  /** A call joins the message before it if that one carries calls. */
  function Append(messages: seq<ChatMessage>, m: ChatMessage): seq<ChatMessage> {
    if m.Calls? && messages != [] && messages[|messages| - 1].Calls? then
      messages[|messages| - 1 := Calls(messages[|messages| - 1].calls + m.calls)]
    else messages + [m]
  }

  function AddItems(messages: seq<ChatMessage>, items: seq<Item>): Result<seq<ChatMessage>, Error>
    decreases items
  {
    if items == [] then Ok(messages)
    else
      match Translated(items[0])
      case Err(e) => Err(e)
      case Ok(None) => AddItems(messages, items[1..])
      case Ok(Some(m)) => AddItems(Append(messages, m), items[1..])
  }

  /** Every turn of a history on its own: messages, results and single calls. */
  function Turns(messages: seq<ChatMessage>): seq<ChatMessage> {
    if messages == [] then []
    else
      var last := messages[|messages| - 1];
      Turns(messages[..|messages| - 1]) + (if last.Calls? then Singles(last.calls) else [last])
  }

  function Singles(calls: seq<Call>): seq<ChatMessage> {
    seq(|calls|, i requires 0 <= i < |calls| => Calls([calls[i]]))
  }

  /** The turns the items stand for, reasoning left out. */
  function ItemTurns(items: seq<Item>): Result<seq<ChatMessage>, Error> {
    if items == [] then Ok([])
    else
      match Translated(items[0])
      case Err(e) => Err(e)
      case Ok(m) =>
        match ItemTurns(items[1..])
        case Err(e) => Err(e)
        case Ok(rest) => Ok((if m.Some? then [m.value] else []) + rest)
  }

  /** Calls sit together: no message of calls is empty or follows another. */
  predicate Coalesced(messages: seq<ChatMessage>) {
    && (forall i | 0 <= i < |messages| && messages[i].Calls? :: messages[i].calls != [])
    && (forall i | 0 <= i < |messages| - 1 :: !(messages[i].Calls? && messages[i + 1].Calls?))
  }

  lemma AppendTurns(messages: seq<ChatMessage>, m: ChatMessage)
    requires m.Calls? ==> |m.calls| == 1
    ensures Turns(Append(messages, m)) == Turns(messages) + [m]
  {
    if m.Calls? {
      assert m.calls == [m.calls[0]] && Singles(m.calls) == [m];
    }
    var out := Append(messages, m);
    if m.Calls? && messages != [] && messages[|messages| - 1].Calls? {
      var front, calls := messages[..|messages| - 1], messages[|messages| - 1].calls;
      assert out[..|out| - 1] == front;
      assert Singles(calls + m.calls) == Singles(calls) + [m];
    } else {
      assert out[..|out| - 1] == messages;
    }
  }

  lemma AppendCoalesced(messages: seq<ChatMessage>, m: ChatMessage)
    requires Coalesced(messages) && (m.Calls? ==> m.calls != [])
    ensures Coalesced(Append(messages, m))
  {
  }

  lemma TranslatedIsOneTurn(item: Item)
    requires Translated(item).Ok? && Translated(item).value.Some? && Translated(item).value.value.Calls?
    ensures |Translated(item).value.value.calls| == 1
  {
  }

  /** Translation keeps every non-reasoning item, in order, exactly once; it
      fails exactly when some item does, with the first failing item's error;
      and calls end up as close together as the order allows. */
  lemma {:induction false} HistoryIsKept(messages: seq<ChatMessage>, items: seq<Item>)
    requires Coalesced(messages)
    ensures match ItemTurns(items)
            case Err(e) => AddItems(messages, items) == Err(e)
            case Ok(turns) =>
              && AddItems(messages, items).Ok?
              && Turns(AddItems(messages, items).value) == Turns(messages) + turns
              && Coalesced(AddItems(messages, items).value)
    decreases items
  {
    if items != [] && Translated(items[0]).Ok? {
      var m := Translated(items[0]).value;
      if m.None? {
        HistoryIsKept(messages, items[1..]);
      } else {
        if m.value.Calls? { TranslatedIsOneTurn(items[0]); }
        AppendTurns(messages, m.value);
        AppendCoalesced(messages, m.value);
        HistoryIsKept(Append(messages, m.value), items[1..]);
      }
    }
  }

  /** The first failing item decides the error: nothing after it matters. */
  lemma {:induction false} FirstBadItemDecides(items: seq<Item>, i: nat)
    requires i < |items| && Translated(items[i]).Err? && forall j | 0 <= j < i :: Translated(items[j]).Ok?
    ensures ItemTurns(items) == Err(Translated(items[i]).error)
  {
    if i > 0 {
      FirstBadItemDecides(items[1..], i - 1);
    }
  }

  /** The turns determine the coalesced messages: coalescing loses nothing and
      leaves nothing to merge. */
  lemma {:induction false} CoalescingIsCanonical(a: seq<ChatMessage>, b: seq<ChatMessage>)
    requires Coalesced(a) && Coalesced(b) && Turns(a) == Turns(b)
    ensures a == b
  {
    LastTurn(a);
    LastTurn(b);
    if a != [] && b != [] {
      var x, y := a[|a| - 1], b[|b| - 1];
      if x.Calls? {
        TrailingCalls(a);
        TrailingCalls(b);
      }
      SameTail(Turns(a[..|a| - 1]), x, Turns(b[..|b| - 1]), y);
      CoalescingIsCanonical(a[..|a| - 1], b[..|b| - 1]);
      assert a == a[..|a| - 1] + [x] && b == b[..|b| - 1] + [y];
    }
  }

  lemma SameTail(p: seq<ChatMessage>, x: ChatMessage, q: seq<ChatMessage>, y: ChatMessage)
    requires p + Tail(x) == q + Tail(y)
    requires x.Calls? <==> y.Calls?
    requires x.Calls? ==> |x.calls| == |y.calls|
    ensures p == q && x == y
  {
    var t := p + Tail(x);
    assert |Tail(x)| == |Tail(y)|;
    assert p == t[..|p|] && q == t[..|q|];
    assert Tail(x) == t[|p|..] && Tail(y) == t[|q|..];
    if x.Calls? {
      forall i | 0 <= i < |x.calls| ensures x.calls[i] == y.calls[i] {
        assert Tail(x)[i] == Calls([x.calls[i]]) && Tail(y)[i] == Calls([y.calls[i]]);
      }
      assert x.calls == y.calls;
    } else {
      assert Tail(x)[0] == Tail(y)[0];
    }
  }

  function Tail(m: ChatMessage): seq<ChatMessage> {
    if m.Calls? then Singles(m.calls) else [m]
  }

  lemma LastTurn(a: seq<ChatMessage>)
    requires Coalesced(a)
    ensures a == [] <==> Turns(a) == []
    ensures a != [] ==> Turns(a) == Turns(a[..|a| - 1]) + Tail(a[|a| - 1]) && Tail(a[|a| - 1]) != []
    ensures a != [] ==> (Turns(a)[|Turns(a)| - 1].Calls? <==> a[|a| - 1].Calls?)
    ensures a != [] && !a[|a| - 1].Calls? ==> Turns(a)[|Turns(a)| - 1] == a[|a| - 1]
  {
  }

  /** How many calls stand at the end of a list of turns. */
  function CallsAtEnd(turns: seq<ChatMessage>): nat {
    if turns != [] && turns[|turns| - 1].Calls? then 1 + CallsAtEnd(turns[..|turns| - 1]) else 0
  }

  lemma {:induction false} CallsAtEndAppend(turns: seq<ChatMessage>, calls: seq<Call>)
    ensures CallsAtEnd(turns + Singles(calls)) == CallsAtEnd(turns) + |calls|
    decreases calls
  {
    if calls == [] {
      assert turns + Singles(calls) == turns;
    } else {
      var front := calls[..|calls| - 1];
      CallsAtEndAppend(turns, front);
      assert (turns + Singles(calls))[..|turns| + |calls| - 1] == turns + Singles(front);
    }
  }

  lemma TrailingCalls(a: seq<ChatMessage>)
    requires Coalesced(a) && a != [] && a[|a| - 1].Calls?
    ensures CallsAtEnd(Turns(a)) == |a[|a| - 1].calls|
  {
    var front := a[..|a| - 1];
    CallsAtEndAppend(Turns(front), a[|a| - 1].calls);
    LastTurn(front);
    assert front != [] ==> !front[|front| - 1].Calls?;
  }
}
