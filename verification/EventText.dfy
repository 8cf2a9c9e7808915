/** The event stream as text: what is printed of each event, and a client that
    works from the received text alone. */
module EventText {
  import opened Common
  import opened Events
  import EventStream

  /** The printed form of an event's fields, and how a client parses it: all
      that is printed of the kind is its name. */
  datatype Printer = Printer(write: (string, nat, Payload) -> string, parse: string -> Option<(string, nat, Payload)>)

  /** What is used of printed JSON: it is one line, and parsing undoes printing. */
  ghost predicate FaithfulPrinter(printer: Printer) {
    forall name, number: nat, payload ::
      var text := printer.write(name, number, payload);
      text != "" && EventStream.OneLine(text) && printer.parse(text) == Some((name, number, payload))
  }

  /** The events of a response that is finished one way or the other. */
  predicate Sendable(kind: Kind) {
    kind.Ended? ==> kind.status in {"completed", "incomplete"}
  }

  const KINDS: seq<Kind> := [
    Created, InProgress, ItemAdded, ItemDone, PartAdded, TextDelta, TextDone, PartDone,
    PayloadDelta(false), PayloadDelta(true), PayloadDone(false), PayloadDone(true),
    Ended("completed"), Ended("incomplete")]

  function FirstNamed(kinds: seq<Kind>, name: string): Option<Kind> {
    if kinds == [] then None
    else if Name(kinds[0]) == name then Some(kinds[0])
    else FirstNamed(kinds[1..], name)
  }

  /** What tells the names apart: their lengths, and where these agree a letter or two. */
  function Signature(name: string): (nat, char, char) {
    (|name|, if |name| > 9 then name[9] else ' ', if |name| > 16 then name[16] else ' ')
  }

  lemma SignatureOf(kind: Kind)
    requires Sendable(kind)
    ensures Signature(Name(kind)) ==
            match kind {
              case Created => (16, 'c', ' ')
              case InProgress => (20, 'i', 'r')
              case ItemAdded => (26, 'o', 'i')
              case ItemDone => (25, 'o', 'i')
              case PartAdded => (27, 'c', '_')
              case TextDelta => (26, 'o', 't')
              case TextDone => (25, 'o', 't')
              case PartDone => (26, 'c', '_')
              case PayloadDelta(custom) => if custom then (37, 'c', 't') else (38, 'f', 'n')
              case PayloadDone(custom) => if custom then (36, 'c', 't') else (37, 'f', 'n')
              case Ended(status) => if status == "completed" then (18, 'c', 'e') else (19, 'i', 'e')
            }
  {
    match kind {
      case PayloadDelta(true) => assert Name(kind) == "response.custom_tool_call_input" + ".delta";
      case PayloadDelta(false) => assert Name(kind) == "response.function_call_arguments" + ".delta";
      case PayloadDone(true) => assert Name(kind) == "response.custom_tool_call_input" + ".done";
      case PayloadDone(false) => assert Name(kind) == "response.function_call_arguments" + ".done";
      case Ended(status) =>
        if status == "completed" { assert Name(kind) == "response." + "completed"; }
        else { assert Name(kind) == "response." + "incomplete"; }
      case _ =>
    }
  }

  /** The names as the Responses API spells them. */
  lemma NamesAsSpelled()
    ensures Name(Created) == "response.created" && Name(InProgress) == "response.in_progress"
    ensures Name(ItemAdded) == "response.output_item.added" && Name(ItemDone) == "response.output_item.done"
    ensures Name(PartAdded) == "response.content_part.added" && Name(PartDone) == "response.content_part.done"
    ensures Name(TextDelta) == "response.output_text.delta" && Name(TextDone) == "response.output_text.done"
  {
  }

  lemma CallNamesAsSpelled()
    ensures Name(PayloadDelta(false)) == "response.function_call_arguments.delta"
    ensures Name(PayloadDone(false)) == "response.function_call_arguments.done"
    ensures Name(PayloadDelta(true)) == "response.custom_tool_call_input.delta"
    ensures Name(PayloadDone(true)) == "response.custom_tool_call_input.done"
  {
  }

  lemma EndingsAsSpelled()
    ensures Name(Ended("completed")) == "response.completed" && Name(Ended("incomplete")) == "response.incomplete"
  {
  }

  /** No two kinds of event that are sent have the same name. */
  lemma NamesDiffer(a: Kind, b: Kind)
    requires Sendable(a) && Sendable(b) && Name(a) == Name(b)
    ensures a == b
  {
    SignatureOf(a);
    SignatureOf(b);
  }

  lemma {:induction false} NamedIsFound(kinds: seq<Kind>, kind: Kind)
    requires Sendable(kind) && kind in kinds && forall k | k in kinds :: Sendable(k)
    ensures FirstNamed(kinds, Name(kind)) == Some(kind)
  {
    if Name(kinds[0]) == Name(kind) {
      NamesDiffer(kinds[0], kind);
    } else {
      NamedIsFound(kinds[1..], kind);
    }
  }

  lemma KindsAreAll(kind: Kind)
    requires Sendable(kind)
    ensures kind in KINDS && forall k | k in KINDS :: Sendable(k)
  {
    assert KINDS[0] == Created && KINDS[1] == InProgress && KINDS[2] == ItemAdded && KINDS[3] == ItemDone;
    assert KINDS[4] == PartAdded && KINDS[5] == TextDelta && KINDS[6] == TextDone && KINDS[7] == PartDone;
    assert KINDS[8] == PayloadDelta(false) && KINDS[9] == PayloadDelta(true);
    assert KINDS[10] == PayloadDone(false) && KINDS[11] == PayloadDone(true);
    assert KINDS[12] == Ended("completed") && KINDS[13] == Ended("incomplete");
  }

  /** The event a client makes of a name and its data; both must agree on the name. */
  function ReadEvent(printer: Printer, sent: EventStream.Sent): Option<Event> {
    match printer.parse(sent.1)
    case None => None
    case Some((name, number, payload)) =>
      match FirstNamed(KINDS, name)
      case None => None
      case Some(kind) => if name == sent.0 then Some(Event(kind, number, payload)) else None
  }

  function Written(printer: Printer, e: Event): EventStream.Sent {
    (Name(e.kind), printer.write(Name(e.kind), e.number, e.payload))
  }

  function AllWritten(printer: Printer, events: seq<Event>): seq<EventStream.Sent> {
    seq(|events|, i requires 0 <= i < |events| => Written(printer, events[i]))
  }

  /** The text a client receives for these events. */
  function WireText(printer: Printer, events: seq<Event>): string {
    EventStream.Concat(EventStream.Frames(AllWritten(printer, events)))
  }

  function ReadAll(printer: Printer, sent: seq<EventStream.Sent>): Option<seq<Event>> {
    if sent == [] then Some([])
    else
      match (ReadEvent(printer, sent[0]), ReadAll(printer, sent[1..]))
      case (Some(e), Some(rest)) => Some([e] + rest)
      case _ => None
  }

  /** What a client makes of received text: parse the event stream, read each
      event, and react to them one by one. */
  function Receive(printer: Printer, text: string): Option<Client> {
    match ReadAll(printer, EventStream.ParseStream(text))
    case None => None
    case Some(events) => Follow(START, events)
  }

  lemma EventReadsBack(printer: Printer, e: Event)
    requires FaithfulPrinter(printer) && Sendable(e.kind)
    ensures ReadEvent(printer, Written(printer, e)) == Some(e)
  {
    KindsAreAll(e.kind);
    NamedIsFound(KINDS, e.kind);
  }

  lemma {:induction false} ReadsBack(printer: Printer, events: seq<Event>)
    requires FaithfulPrinter(printer) && forall i | 0 <= i < |events| :: Sendable(events[i].kind)
    ensures ReadAll(printer, AllWritten(printer, events)) == Some(events)
    decreases events
  {
    if events != [] {
      assert AllWritten(printer, events)[1..] == AllWritten(printer, events[1..]);
      EventReadsBack(printer, events[0]);
      ReadsBack(printer, events[1..]);
      assert [events[0]] + events[1..] == events;
    }
  }

  /** From the text of the framed stream alone a client reads exactly the events
      sent, and ends with exactly the response's output. */
  lemma StreamOnTheWire(r: WireResponse, printer: Printer)
    requires Complete(r.output) && r.status in {"completed", "incomplete"} && FaithfulPrinter(printer)
    ensures ReadAll(printer, EventStream.ParseStream(WireText(printer, Stream(r)))) == Some(Stream(r))
    ensures Receive(printer, WireText(printer, Stream(r))) == Some(Client(Closed, |Stream(r)|, r.output, r.model))
  {
    var events := Stream(r);
    var sent := AllWritten(printer, events);
    forall i | 0 <= i < |events| ensures EventStream.Framable(sent[i]) && Sendable(events[i].kind) {
      EndedStatus(r, i);
      NameIsOneLine(events[i].kind);
    }
    EventStream.FramingRoundTrip(sent);
    ReadsBack(printer, events);
    StreamRebuildsOutput(r);
  }

  lemma EndedStatus(r: WireResponse, i: nat)
    requires Complete(r.output) && i < |Stream(r)|
    ensures Stream(r)[i].kind.Ended? ==> Stream(r)[i].kind.status == r.status
  {
    BodyNumbers(r.output, |r.output|);
  }

  lemma NameIsOneLine(kind: Kind)
    requires Sendable(kind)
    ensures Name(kind) != "" && EventStream.OneLine(Name(kind))
  {
    LifecycleNames();
    ItemNames();
    EndedNames();
    TextNames();
    FunctionNames();
    CustomNames();
  }

  lemma LifecycleNames()
    ensures EventStream.OneLine("response.created") && EventStream.OneLine("response.in_progress")
  {
  }

  lemma ItemNames()
    ensures EventStream.OneLine("response.output_item.added") && EventStream.OneLine("response.output_item.done")
  {
  }

  lemma EndedNames()
    ensures EventStream.OneLine("response." + "completed") && EventStream.OneLine("response." + "incomplete")
  {
  }

  lemma TextNames()
    ensures EventStream.OneLine("response.content_part.added") && EventStream.OneLine("response.content_part.done")
    ensures EventStream.OneLine("response.output_text.delta") && EventStream.OneLine("response.output_text.done")
  {
  }

  lemma FunctionNames()
    ensures EventStream.OneLine("response.function_call_arguments" + ".delta") && EventStream.OneLine("response.function_call_arguments" + ".done")
  {
  }

  lemma CustomNames()
    ensures EventStream.OneLine("response.custom_tool_call_input" + ".delta") && EventStream.OneLine("response.custom_tool_call_input" + ".done")
  {
  }
}
