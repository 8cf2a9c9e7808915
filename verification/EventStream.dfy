/** Server-sent-event framing, and the event-stream interpretation of section
    9.2 of the WHATWG HTML Living Standard that reads it. */
module EventStream {
  import opened Common

  /** One event as sent: its type and its data. */
  type Sent = (string, string)

  function Frame(e: Sent): string {
    "event: " + e.0 + "\n" + ("data: " + e.1 + "\n" + "\n")
  }

  function Concat(texts: seq<string>): string {
    if texts == [] then "" else texts[0] + Concat(texts[1..])
  }

  function Frames(events: seq<Sent>): seq<string> {
    seq(|events|, i requires 0 <= i < |events| => Frame(events[i]))
  }

  // ---- The reader -----------------------------------------------------------------

  const BYTE_ORDER_MARK: char := '\U{FEFF}'

  predicate IsBreak(c: char) { c == '\n' || c == '\r' }

  /** The first line, ended by LF, CR or CRLF, and what follows it. */
  function NextLine(text: string): (r: Option<(string, string)>)
    ensures r.Some? ==> |r.value.1| < |text|
  {
    if text == "" then None
    else if text[0] == '\r' then Some(("", if |text| > 1 && text[1] == '\n' then text[2..] else text[1..]))
    else if text[0] == '\n' then Some(("", text[1..]))
    else
      match NextLine(text[1..])
      case None => None
      case Some((line, rest)) => Some(([text[0]] + line, rest))
  }

  datatype Reader = Reader(data: string, eventType: string, events: seq<Sent>)

  const READY := Reader("", "", [])

  function Colon(line: string): (i: nat)
    ensures i <= |line|
  {
    if line == "" || line[0] == ':' then 0 else 1 + Colon(line[1..])
  }

  function Field(reader: Reader, name: string, value: string): Reader {
    if name == "event" then reader.(eventType := value)
    else if name == "data" then reader.(data := reader.data + value + "\n")
    else reader   // id and retry do not show in the events; anything else is ignored
  }

  function Dispatch(reader: Reader): Reader {
    if reader.data == "" then reader.(eventType := "")
    else
      var data := if reader.data[|reader.data| - 1] == '\n' then reader.data[..|reader.data| - 1] else reader.data;
      Reader("", "", reader.events + [(if reader.eventType == "" then "message" else reader.eventType, data)])
  }

  function Line(reader: Reader, line: string): Reader {
    var colon := Colon(line);
    if line == "" then Dispatch(reader)
    else if line[0] == ':' then reader
    else if colon < |line| then
      var value := line[colon + 1..];
      Field(reader, line[..colon], if value != "" && value[0] == ' ' then value[1..] else value)
    else Field(reader, line, "")
  }

  /** Complete lines are read; an unfinished last line is discarded. */
  function Read(reader: Reader, text: string): Reader
    decreases |text|
  {
    match NextLine(text)
    case None => reader
    case Some((line, rest)) => Read(Line(reader, line), rest)
  }

  function ParseStream(text: string): seq<Sent> {
    Read(READY, if text != "" && text[0] == BYTE_ORDER_MARK then text[1..] else text).events
  }

  // ---- The reader inverts the framing ----------------------------------------------

  predicate OneLine(s: string) {
    '\n' !in s && '\r' !in s
  }

  /** What the framing needs: no line breaks, and something to say. */
  predicate Framable(e: Sent) {
    e.0 != "" && e.1 != "" && OneLine(e.0) && OneLine(e.1)
  }

  lemma {:induction false} LineComesOff(line: string, rest: string)
    requires OneLine(line)
    ensures NextLine(line + "\n" + rest) == Some((line, rest))
  {
    var text := line + "\n" + rest;
    if line == "" {
      assert text == "\n" + rest;
      assert text[1..] == rest;
    } else {
      assert text[0] == line[0] && !IsBreak(line[0]) && text[1..] == line[1..] + "\n" + rest;
      LineComesOff(line[1..], rest);
      assert [line[0]] + line[1..] == line;
    }
  }

  lemma {:induction false} ColonAfter(name: string, value: string)
    requires ':' !in name
    ensures Colon(name + ":" + value) == |name|
  {
    var line := name + ":" + value;
    if name != "" {
      assert line[0] == name[0] && line[1..] == name[1..] + ":" + value;
      ColonAfter(name[1..], value);
    }
  }

  lemma FieldLine(reader: Reader, name: string, value: string)
    requires name != "" && ':' !in name
    ensures Line(reader, name + ":" + (" " + value)) == Field(reader, name, value)
  {
    var line := name + ":" + (" " + value);
    ColonAfter(name, " " + value);
    assert line[..|name|] == name && line[|name| + 1..] == " " + value;
    assert (" " + value)[1..] == value;
  }

  lemma FieldComesOff(reader: Reader, name: string, value: string, rest: string)
    requires name != "" && ':' !in name && OneLine(name) && OneLine(value)
    ensures Read(reader, name + ":" + (" " + value) + "\n" + rest) == Read(Field(reader, name, value), rest)
  {
    LineComesOff(name + ":" + (" " + value), rest);
    FieldLine(reader, name, value);
  }

  /** Two fields and a blank line: both are read, then the event is dispatched. */
  lemma TwoFieldsComeOff(reader: Reader, first: Sent, second: Sent, rest: string)
    requires first.0 != "" && ':' !in first.0 && OneLine(first.0) && OneLine(first.1)
    requires second.0 != "" && ':' !in second.0 && OneLine(second.0) && OneLine(second.1)
    ensures Read(reader, first.0 + ":" + (" " + first.1) + "\n" + (second.0 + ":" + (" " + second.1) + "\n" + ("" + "\n" + rest)))
            == Read(Dispatch(Field(Field(reader, first.0, first.1), second.0, second.1)), rest)
  {
    FieldComesOff(reader, first.0, first.1, second.0 + ":" + (" " + second.1) + "\n" + ("" + "\n" + rest));
    FieldComesOff(Field(reader, first.0, first.1), second.0, second.1, "" + "\n" + rest);
    LineComesOff("", rest);
  }

  lemma FrameIsTwoFields(e: Sent, rest: string)
    ensures Frame(e) + rest
            == "event" + ":" + (" " + e.0) + "\n" + ("data" + ":" + (" " + e.1) + "\n" + ("" + "\n" + rest))
  {
  }

  lemma FrameComesOff(reader: Reader, e: Sent, rest: string)
    requires Framable(e) && reader.data == "" && reader.eventType == ""
    ensures Read(reader, Frame(e) + rest) == Read(Reader("", "", reader.events + [e]), rest)
  {
    FrameIsTwoFields(e, rest);
    TwoFieldsComeOff(reader, ("event", e.0), ("data", e.1), rest);
    FrameDispatches(reader, e);
  }

  lemma FrameDispatches(reader: Reader, e: Sent)
    requires Framable(e) && reader.data == "" && reader.eventType == ""
    ensures Dispatch(Field(Field(reader, "event", e.0), "data", e.1)) == Reader("", "", reader.events + [e])
  {
    var data := "" + e.1 + "\n";
    assert data[..|data| - 1] == e.1;
  }

  /** A reader between events takes this text as exactly this event. */
  ghost predicate Delivers(text: string, e: Sent) {
    forall reader: Reader, rest: string | reader.data == "" && reader.eventType == "" ::
      Read(reader, text + rest) == Read(Reader("", "", reader.events + [e]), rest)
  }

  lemma FrameDelivers(e: Sent)
    requires Framable(e)
    ensures Delivers(Frame(e), e)
  {
    forall reader: Reader, rest: string | reader.data == "" && reader.eventType == ""
      ensures Read(reader, Frame(e) + rest) == Read(Reader("", "", reader.events + [e]), rest)
    {
      FrameComesOff(reader, e, rest);
    }
  }

  lemma {:induction false} AllDelivered(reader: Reader, texts: seq<string>, events: seq<Sent>)
    requires reader.data == "" && reader.eventType == "" && |texts| == |events|
    requires forall i | 0 <= i < |texts| :: Delivers(texts[i], events[i])
    ensures Read(reader, Concat(texts)) == Reader("", "", reader.events + events)
    decreases texts
  {
    if events == [] {
      assert reader.events + events == reader.events;
    } else {
      var next := Reader("", "", reader.events + [events[0]]);
      assert Delivers(texts[0], events[0]);
      AllDelivered(next, texts[1..], events[1..]);
      assert next.events + events[1..] == reader.events + events;
    }
  }

  /** A conforming reader gets back exactly the events that were framed. */
  lemma FramingRoundTrip(events: seq<Sent>)
    requires forall i | 0 <= i < |events| :: Framable(events[i])
    ensures ParseStream(Concat(Frames(events))) == events
  {
    forall i | 0 <= i < |events| ensures Delivers(Frames(events)[i], events[i]) {
      FrameDelivers(events[i]);
    }
    AllDelivered(READY, Frames(events), events);
    assert [] + events == events;
    if events != [] {
      StartsWithField(events);
    }
  }

  lemma StartsWithField(events: seq<Sent>)
    requires events != []
    ensures Concat(Frames(events)) != "" && Concat(Frames(events))[0] == 'e'
  {
    assert Frame(events[0])[0] == 'e';
  }
}
