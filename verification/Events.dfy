/** The ordered event stream of a finished response, and a client that rebuilds
    the response from it while checking the protocol. */
module Events {
  import opened Common
  import opened Responses
  import opened Adapter

  // ---- Items as they travel ---------------------------------------------------------

  /** An output item on the wire: a message with its one text part, once that
      is there, or a call with its arguments (or custom input) as text. */
  datatype WireItem =
    | WireMessage(id: string, status: string, part: Option<string>)
    | WireCall(custom: bool, id: string, status: string, callId: string, name: string, namespace: string, payload: string)

  datatype WireResponse = WireResponse(model: string, status: string, output: seq<WireItem>)

  function OnWire(item: OutItem, spell: JsonText -> string): WireItem {
    match item
    case MessageItem(id, status, text) => WireMessage(id, status, Some(text))
    case FunctionItem(id, status, callId, name, namespace, arguments) =>
      WireCall(false, id, status, callId, name, namespace, spell(arguments))
    case CustomItem(id, status, callId, name, namespace, input) =>
      WireCall(true, id, status, callId, name, namespace, input)
  }

  function ResponseOnWire(r: Response, spell: JsonText -> string): (w: WireResponse)
    ensures |w.output| == |r.output|
    ensures Complete(w.output)
  {
    WireResponse(r.model, r.status, seq(|r.output|, i requires 0 <= i < |r.output| => OnWire(r.output[i], spell)))
  }

  /** The wire form of an item carries all of it. */
  lemma WireCarriesAll(r: Response, spell: JsonText -> string, i: nat)
    requires i < |r.output|
    ensures var sent := ResponseOnWire(r, spell);
            var item, onWire := r.output[i], sent.output[i];
            && sent.model == r.model && sent.status == r.status
            && onWire.id == item.id && onWire.status == item.status
            && (item.MessageItem? <==> onWire.WireMessage?)
            && (item.MessageItem? ==> onWire.part == Some(item.text))
            && (!item.MessageItem? ==>
                  && onWire.custom == item.CustomItem? && onWire.callId == item.callId
                  && onWire.name == item.name && onWire.namespace == item.namespace
                  && onWire.payload == if item.CustomItem? then item.input else spell(item.arguments))
  {
  }

  datatype Kind =
    | Created | InProgress
    | ItemAdded | ItemDone
    | PartAdded | TextDelta | TextDone | PartDone
    | PayloadDelta(custom: bool) | PayloadDone(custom: bool)
    | Ended(status: string)

  function Name(kind: Kind): string {
    match kind
    case Created => "response.created"
    case InProgress => "response.in_progress"
    case ItemAdded => "response.output_item.added"
    case ItemDone => "response.output_item.done"
    case PartAdded => "response.content_part.added"
    case TextDelta => "response.output_text.delta"
    case TextDone => "response.output_text.done"
    case PartDone => "response.content_part.done"
    case PayloadDelta(custom) =>
      (if custom then "response.custom_tool_call_input" else "response.function_call_arguments") + ".delta"
    case PayloadDone(custom) =>
      (if custom then "response.custom_tool_call_input" else "response.function_call_arguments") + ".done"
    case Ended(status) => "response." + status
  }

  datatype Payload =
    | Whole(response: WireResponse)
    | OfItem(index: nat, item: WireItem)
    | OfText(itemId: string, index: nat, text: string)

  datatype Event = Event(kind: Kind, number: nat, payload: Payload)

  // ---- The generator ----------------------------------------------------------------

  /** The item as first announced: in progress, with nothing in it yet. */
  function Pending(item: WireItem): WireItem {
    match item
    case WireMessage(id, _, _) => WireMessage(id, "in_progress", None)
    case WireCall(custom, id, _, callId, name, namespace, _) =>
      WireCall(custom, id, "in_progress", callId, name, namespace, "")
  }

  function ItemEvents(number: nat, index: nat, item: WireItem): seq<Event>
    requires item.WireMessage? ==> item.part.Some?
  {
    var text := (kind: Kind, n: nat, t: string) => Event(kind, number + n, OfText(item.id, index, t));
    match item
    case WireMessage(_, _, part) =>
      [Event(ItemAdded, number, OfItem(index, Pending(item))),
       text(PartAdded, 1, ""), text(TextDelta, 2, part.value), text(TextDone, 3, part.value), text(PartDone, 4, part.value),
       Event(ItemDone, number + 5, OfItem(index, item))]
    case WireCall(custom, _, _, _, _, _, payload) =>
      [Event(ItemAdded, number, OfItem(index, Pending(item))),
       text(PayloadDelta(custom), 1, payload), text(PayloadDone(custom), 2, payload),
       Event(ItemDone, number + 3, OfItem(index, item))]
  }

  function EventCount(item: WireItem): nat {
    if item.WireMessage? then 6 else 4
  }

  predicate Complete(items: seq<WireItem>) {
    forall i | 0 <= i < |items| :: items[i].WireMessage? ==> items[i].part.Some?
  }

  /** The events of the first k items. */
  function BodyEvents(items: seq<WireItem>, k: nat): seq<Event>
    requires k <= |items| && Complete(items)
  {
    if k == 0 then []
    else BodyEvents(items, k - 1) + ItemEvents(2 + BodyCount(items, k - 1), k - 1, items[k - 1])
  }

  function BodyCount(items: seq<WireItem>, k: nat): nat
    requires k <= |items|
  {
    if k == 0 then 0 else BodyCount(items, k - 1) + EventCount(items[k - 1])
  }

  function Stream(r: WireResponse): seq<Event>
    requires Complete(r.output)
  {
    var initial := r.(status := "in_progress", output := []);
    var n := |r.output|;
    [Event(Created, 0, Whole(initial)), Event(InProgress, 1, Whole(initial))]
    + BodyEvents(r.output, n)
    + [Event(Ended(r.status), 2 + BodyCount(r.output, n), Whole(r))]
  }

  /** The counter shared by every emission of one stream. */
  class Emitter {
    var sequence: nat

    constructor ()
      ensures sequence == 0
    {
      sequence := 0;
    }

    method Emit(kind: Kind, payload: Payload) returns (e: Event)
      modifies this
      ensures e == Event(kind, old(sequence), payload) && sequence == old(sequence) + 1
    {
      e := Event(kind, sequence, payload);
      sequence := sequence + 1;
    }

    method EmitItem(index: nat, item: WireItem) returns (out: seq<Event>)
      requires item.WireMessage? ==> item.part.Some?
      modifies this
      ensures out == ItemEvents(old(sequence), index, item) && sequence == old(sequence) + EventCount(item)
    {
      var added := Emit(ItemAdded, OfItem(index, Pending(item)));
      out := [added];
      if item.WireMessage? {
        var text := item.part.value;
        var partAdded := Emit(PartAdded, OfText(item.id, index, ""));
        var delta := Emit(TextDelta, OfText(item.id, index, text));
        var textDone := Emit(TextDone, OfText(item.id, index, text));
        var partDone := Emit(PartDone, OfText(item.id, index, text));
        out := out + [partAdded, delta, textDone, partDone];
      } else {
        var delta := Emit(PayloadDelta(item.custom), OfText(item.id, index, item.payload));
        var payloadDone := Emit(PayloadDone(item.custom), OfText(item.id, index, item.payload));
        out := out + [delta, payloadDone];
      }
      var done := Emit(ItemDone, OfItem(index, item));
      out := out + [done];
    }
  }

  method EmitBody(emitter: Emitter, items: seq<WireItem>) returns (out: seq<Event>)
    requires Complete(items) && emitter.sequence == 2
    modifies emitter
    ensures out == BodyEvents(items, |items|) && emitter.sequence == 2 + BodyCount(items, |items|)
  {
    out := [];
    for i := 0 to |items|
      invariant out == BodyEvents(items, i)
      invariant emitter.sequence == 2 + BodyCount(items, i)
    {
      var events := emitter.EmitItem(i, items[i]);
      out := out + events;
    }
  }

  method EmitEvents(response: Response, spell: JsonText -> string) returns (out: seq<Event>)
    ensures out == Stream(ResponseOnWire(response, spell))
  {
    var wire := ResponseOnWire(response, spell);
    var emitter := new Emitter();
    var initial := wire.(status := "in_progress", output := []);
    var created := emitter.Emit(Created, Whole(initial));
    var inProgress := emitter.Emit(InProgress, Whole(initial));
    var body := EmitBody(emitter, wire.output);
    var ended := emitter.Emit(Ended(wire.status), Whole(wire));
    out := [created, inProgress] + body + [ended];
  }

  // ---- Numbering -------------------------------------------------------------------

  function Messages(items: seq<WireItem>): nat {
    if items == [] then 0 else Messages(items[..|items| - 1]) + if items[|items| - 1].WireMessage? then 1 else 0
  }

  lemma {:induction false} BodyCountIs(items: seq<WireItem>, k: nat)
    requires k <= |items|
    ensures BodyCount(items, k) == 6 * Messages(items[..k]) + 4 * (k - Messages(items[..k]))
  {
    if k > 0 {
      BodyCountIs(items, k - 1);
      assert items[..k][..k - 1] == items[..k - 1];
    }
  }

  lemma {:induction false} BodyNumbers(items: seq<WireItem>, k: nat)
    requires k <= |items| && Complete(items)
    ensures |BodyEvents(items, k)| == BodyCount(items, k)
    ensures forall i | 0 <= i < |BodyEvents(items, k)| ::
              BodyEvents(items, k)[i].number == 2 + i && !BodyEvents(items, k)[i].kind.Ended?
  {
    if k > 0 {
      BodyNumbers(items, k - 1);
      ItemNumbers(2 + BodyCount(items, k - 1), k - 1, items[k - 1]);
    }
  }

  lemma ItemNumbers(number: nat, index: nat, item: WireItem)
    requires item.WireMessage? ==> item.part.Some?
    ensures |ItemEvents(number, index, item)| == EventCount(item)
    ensures forall i | 0 <= i < EventCount(item) ::
              ItemEvents(number, index, item)[i].number == number + i && !ItemEvents(number, index, item)[i].kind.Ended?
  {
  }

  /** Sequence numbers run from 0 to N - 1 with N = 3 + 6 per message + 4 per
      call, and the one terminal event is the last. */
  lemma StreamNumbers(r: WireResponse)
    requires Complete(r.output)
    ensures var events, m := Stream(r), Messages(r.output);
            && |events| == 3 + 6 * m + 4 * (|r.output| - m)
            && (forall i | 0 <= i < |events| :: events[i].number == i)
            && (forall i | 0 <= i < |events| :: events[i].kind.Ended? <==> i == |events| - 1)
  {
    BodyNumbers(r.output, |r.output|);
    BodyCountIs(r.output, |r.output|);
    assert r.output[..|r.output|] == r.output;
  }

  // ---- A client --------------------------------------------------------------------

  datatype Phase =
    | Unstarted | Announced | Between
    | InItem(open: WireItem) | InPart(open: WireItem) | TextClosed(open: WireItem)
    | Closed

  /** What a client has built so far: the items that are done, and the one that
      is open; `next` is the sequence number it expects, `model` what the first
      event named. */
  datatype Client = Client(phase: Phase, next: nat, items: seq<WireItem>, model: string)

  /** A response is announced before it has any output. */
  predicate Announces(payload: Payload) {
    payload.Whole? && payload.response.status == "in_progress" && payload.response.output == []
  }

  /** An item is announced before it has any text. */
  predicate AnnouncesItem(item: WireItem) {
    item.status == "in_progress" && if item.WireMessage? then item.part == None else item.payload == ""
  }

  const START := Client(Unstarted, 0, [], "")

  /** The event is about the text of this open item, the one after the items done. */
  predicate Concerns(c: Client, e: Event, open: WireItem, message: bool) {
    && e.payload.OfText? && e.payload.index == |c.items| && e.payload.itemId == open.id
    && open.WireMessage? == message
  }

  function Moved(c: Client, phase: Phase): Option<Client> {
    Some(c.(phase := phase, next := c.next + 1))
  }

  /** One event: append on added, concatenate deltas, check on done; None is a
      protocol violation. */
  function React(c: Client, e: Event): Option<Client> {
    if e.number != c.next then None
    else
      match (e.kind, c.phase)
      case (Created, Unstarted) =>
        if Announces(e.payload) then Moved(c.(model := e.payload.response.model), Announced) else None
      case (InProgress, Announced) =>
        if Announces(e.payload) && e.payload.response.model == c.model then Moved(c, Between) else None
      case (ItemAdded, Between) =>
        if e.payload.OfItem? && e.payload.index == |c.items| && AnnouncesItem(e.payload.item) then Moved(c, InItem(e.payload.item)) else None
      case (PartAdded, InItem(open)) =>
        if Concerns(c, e, open, true) && open.part.None?
        then Moved(c, InPart(WireMessage(open.id, open.status, Some(e.payload.text)))) else None
      case (TextDelta, InPart(open)) =>
        if Concerns(c, e, open, true) && open.part.Some?
        then Moved(c, InPart(WireMessage(open.id, open.status, Some(open.part.value + e.payload.text)))) else None
      case (TextDone, InPart(open)) =>
        if Concerns(c, e, open, true) && open.part == Some(e.payload.text) then Moved(c, TextClosed(open)) else None
      case (PartDone, TextClosed(open)) =>
        if Concerns(c, e, open, true) && open.part == Some(e.payload.text) then Moved(c, InItem(open)) else None
      case (PayloadDelta(custom), InItem(open)) =>
        if Concerns(c, e, open, false) && open.custom == custom
        then Moved(c, InItem(open.(payload := open.payload + e.payload.text))) else None
      case (PayloadDone(custom), InItem(open)) =>
        if Concerns(c, e, open, false) && open.custom == custom && open.payload == e.payload.text
        then Moved(c, InItem(open)) else None
      case (ItemDone, InItem(open)) =>
        if e.payload.OfItem? && e.payload.index == |c.items| && Pending(e.payload.item) == Pending(open) && SameText(e.payload.item, open)
        then Some(Client(Between, c.next + 1, c.items + [e.payload.item], c.model)) else None
      case (Ended(status), Between) =>
        if e.payload == Whole(WireResponse(c.model, status, c.items))
        then Moved(c, Closed) else None
      case _ => None
  }

  /** The text built is the text the finished item carries. */
  predicate SameText(done: WireItem, open: WireItem) {
    match (done, open)
    case (WireMessage(_, _, p), WireMessage(_, _, q)) => p == q
    case (WireCall(_, _, _, _, _, _, p), WireCall(_, _, _, _, _, _, q)) => p == q
    case _ => false
  }

  function Follow(c: Client, events: seq<Event>): Option<Client>
    decreases events
  {
    if events == [] then Some(c)
    else
      match React(c, events[0])
      case None => None
      case Some(next) => Follow(next, events[1..])
  }

  lemma {:induction false} FollowConcat(c: Client, a: seq<Event>, b: seq<Event>)
    ensures Follow(c, a + b) == match Follow(c, a) { case None => None case Some(next) => Follow(next, b) }
    decreases a
  {
    if a == [] {
      assert a + b == b;
    } else {
      assert (a + b)[0] == a[0] && (a + b)[1..] == a[1..] + b;
      if React(c, a[0]).Some? {
        FollowConcat(React(c, a[0]).value, a[1..], b);
      }
    }
  }

  /** A client that takes every event of a list passes through these states. */
  lemma {:induction false} FollowStates(states: seq<Client>, events: seq<Event>)
    requires |states| == |events| + 1
    requires forall i | 0 <= i < |events| :: React(states[i], events[i]) == Some(states[i + 1])
    ensures Follow(states[0], events) == Some(states[|events|])
    decreases events
  {
    if events != [] {
      assert React(states[0], events[0]) == Some(states[1]);
      FollowStates(states[1..], events[1..]);
    }
  }

  /** The events of one item take a client between items to the client that
      has exactly that item more. */
  lemma ItemIsRebuilt(c: Client, item: WireItem)
    requires c.phase.Between? && (item.WireMessage? ==> item.part.Some?)
    ensures Follow(c, ItemEvents(c.next, |c.items|, item))
            == Some(Client(Between, c.next + EventCount(item), c.items + [item], c.model))
  {
    if item.WireMessage? {
      MessageIsRebuilt(c, item);
    } else {
      CallIsRebuilt(c, item);
    }
  }

  /** The open form of an item: everything but the status already there. */
  function Filled(item: WireItem): WireItem {
    match item
    case WireMessage(id, _, part) => WireMessage(id, "in_progress", part)
    case WireCall(custom, id, _, callId, name, namespace, payload) =>
      WireCall(custom, id, "in_progress", callId, name, namespace, payload)
  }

  function CallOpening(number: nat, index: nat, item: WireItem): seq<Event>
    requires item.WireCall?
  {
    [Event(ItemAdded, number, OfItem(index, Pending(item))),
     Event(PayloadDelta(item.custom), number + 1, OfText(item.id, index, item.payload))]
  }

  lemma CallIsFilled(c: Client, item: WireItem)
    requires c.phase.Between? && item.WireCall?
    ensures Follow(c, CallOpening(c.next, |c.items|, item)) == Some(Client(InItem(Filled(item)), c.next + 2, c.items, c.model))
  {
    assert "" + item.payload == item.payload;
    FollowStates([c, Client(InItem(Pending(item)), c.next + 1, c.items, c.model), Client(InItem(Filled(item)), c.next + 2, c.items, c.model)],
                 CallOpening(c.next, |c.items|, item));
  }

  function CallEnding(number: nat, index: nat, item: WireItem): seq<Event>
    requires item.WireCall?
  {
    [Event(PayloadDone(item.custom), number, OfText(item.id, index, item.payload)), Event(ItemDone, number + 1, OfItem(index, item))]
  }

  lemma CallIsClosed(c: Client, item: WireItem)
    requires c.phase == InItem(Filled(item)) && item.WireCall?
    ensures Follow(c, CallEnding(c.next, |c.items|, item)) == Some(Client(Between, c.next + 2, c.items + [item], c.model))
  {
    var ending := CallEnding(c.next, |c.items|, item);
    assert React(c, ending[0]) == Some(c.(next := c.next + 1));
    assert React(c.(next := c.next + 1), ending[1]) == Some(Client(Between, c.next + 2, c.items + [item], c.model));
    FollowStates([c, c.(next := c.next + 1), Client(Between, c.next + 2, c.items + [item], c.model)], ending);
  }

  lemma CallIsRebuilt(c: Client, item: WireItem)
    requires c.phase.Between? && item.WireCall?
    ensures Follow(c, ItemEvents(c.next, |c.items|, item)) == Some(Client(Between, c.next + 4, c.items + [item], c.model))
  {
    var mid := Client(InItem(Filled(item)), c.next + 2, c.items, c.model);
    var opening, ending := CallOpening(c.next, |c.items|, item), CallEnding(mid.next, |c.items|, item);
    CallIsFilled(c, item);
    CallIsClosed(mid, item);
    assert ItemEvents(c.next, |c.items|, item) == opening + ending;
    FollowChain(c, opening, mid, ending, Client(Between, c.next + 4, c.items + [item], c.model));
  }

  lemma MessageIsFilled(c: Client, item: WireItem)
    requires c.phase.Between? && item.WireMessage? && item.part.Some?
    ensures Follow(c, ItemEvents(c.next, |c.items|, item)[..3]) == Some(Client(InPart(Filled(item)), c.next + 3, c.items, c.model))
  {
    assert "" + item.part.value == item.part.value;
    FollowStates([c, Client(InItem(Pending(item)), c.next + 1, c.items, c.model),
                  Client(InPart(WireMessage(item.id, "in_progress", Some(""))), c.next + 2, c.items, c.model),
                  Client(InPart(Filled(item)), c.next + 3, c.items, c.model)],
                 ItemEvents(c.next, |c.items|, item)[..3]);
  }

  function MessageEnding(number: nat, index: nat, item: WireItem): seq<Event>
    requires item.WireMessage? && item.part.Some?
  {
    [Event(TextDone, number, OfText(item.id, index, item.part.value)),
     Event(PartDone, number + 1, OfText(item.id, index, item.part.value)),
     Event(ItemDone, number + 2, OfItem(index, item))]
  }

  lemma MessageIsClosed(c: Client, item: WireItem)
    requires c.phase == InPart(Filled(item)) && item.WireMessage? && item.part.Some?
    ensures Follow(c, MessageEnding(c.next, |c.items|, item)) == Some(Client(Between, c.next + 3, c.items + [item], c.model))
  {
    FollowStates([c, Client(TextClosed(Filled(item)), c.next + 1, c.items, c.model), Client(InItem(Filled(item)), c.next + 2, c.items, c.model),
                  Client(Between, c.next + 3, c.items + [item], c.model)],
                 MessageEnding(c.next, |c.items|, item));
  }

  lemma MessageIsRebuilt(c: Client, item: WireItem)
    requires c.phase.Between? && item.WireMessage? && item.part.Some?
    ensures Follow(c, ItemEvents(c.next, |c.items|, item)) == Some(Client(Between, c.next + 6, c.items + [item], c.model))
  {
    var events := ItemEvents(c.next, |c.items|, item);
    var mid := Client(InPart(Filled(item)), c.next + 3, c.items, c.model);
    MessageIsFilled(c, item);
    MessageIsClosed(mid, item);
    assert events[3..] == MessageEnding(mid.next, |c.items|, item);
    FollowChain(c, events[..3], mid, events[3..], Client(Between, c.next + 6, c.items + [item], c.model));
    assert events[..3] + events[3..] == events;
  }

  lemma FollowChain(c: Client, a: seq<Event>, mid: Client, b: seq<Event>, end: Client)
    requires Follow(c, a) == Some(mid) && Follow(mid, b) == Some(end)
    ensures Follow(c, a + b) == Some(end)
  {
    FollowConcat(c, a, b);
  }

  lemma BodyExtends(c: Client, before: seq<Event>, items: seq<WireItem>, k: nat, model: string)
    requires 0 < k <= |items| && Complete(items)
    requires Follow(c, before) == Some(Client(Between, 2 + BodyCount(items, k - 1), items[..k - 1], model))
    ensures Follow(c, before + ItemEvents(2 + BodyCount(items, k - 1), k - 1, items[k - 1]))
            == Some(Client(Between, 2 + BodyCount(items, k), items[..k], model))
  {
    var mid := Client(Between, 2 + BodyCount(items, k - 1), items[..k - 1], model);
    ItemIsRebuilt(mid, items[k - 1]);
    FollowConcat(c, before, ItemEvents(mid.next, k - 1, items[k - 1]));
    assert items[..k - 1] + [items[k - 1]] == items[..k];
  }

  lemma {:induction false} BodyIsRebuilt(items: seq<WireItem>, k: nat, model: string)
    requires k <= |items| && Complete(items)
    ensures Follow(Client(Between, 2, [], model), BodyEvents(items, k))
            == Some(Client(Between, 2 + BodyCount(items, k), items[..k], model))
  {
    if k > 0 {
      BodyIsRebuilt(items, k - 1, model);
      BodyExtends(Client(Between, 2, [], model), BodyEvents(items, k - 1), items, k, model);
    }
  }

  function Opening(r: WireResponse): seq<Event> {
    var initial := r.(status := "in_progress", output := []);
    [Event(Created, 0, Whole(initial)), Event(InProgress, 1, Whole(initial))]
  }

  function Ending(r: WireResponse): seq<Event> {
    [Event(Ended(r.status), 2 + BodyCount(r.output, |r.output|), Whole(r))]
  }

  lemma OpeningIsFollowed(r: WireResponse)
    ensures Follow(START, Opening(r)) == Some(Client(Between, 2, [], r.model))
  {
    FollowStates([START, Client(Announced, 1, [], r.model), Client(Between, 2, [], r.model)], Opening(r));
  }

  lemma EndingIsFollowed(r: WireResponse)
    ensures var n := BodyCount(r.output, |r.output|);
            Follow(Client(Between, 2 + n, r.output, r.model), Ending(r)) == Some(Client(Closed, 3 + n, r.output, r.model))
  {
    var n := BodyCount(r.output, |r.output|);
    FollowStates([Client(Between, 2 + n, r.output, r.model), Client(Closed, 3 + n, r.output, r.model)], Ending(r));
  }

  /** A client that follows the whole stream accepts every event in order and
      ends with exactly the response's model and output. */
  lemma StreamRebuildsOutput(r: WireResponse)
    requires Complete(r.output)
    ensures Follow(START, Stream(r)) == Some(Client(Closed, |Stream(r)|, r.output, r.model))
  {
    hide React, Follow, BodyEvents;
    var n := |r.output|;
    var opening, ending := Opening(r), Ending(r);
    var built := Client(Between, 2 + BodyCount(r.output, n), r.output, r.model);
    OpeningIsFollowed(r);
    BodyIsRebuilt(r.output, n, r.model);
    assert r.output[..n] == r.output;
    FollowChain(START, opening, Client(Between, 2, [], r.model), BodyEvents(r.output, n), built);
    EndingIsFollowed(r);
    FollowChain(START, opening + BodyEvents(r.output, n), built, ending, Client(Closed, 3 + BodyCount(r.output, n), r.output, r.model));
    BodyNumbers(r.output, n);
  }

  lemma ClosedAcceptsNothing(c: Client, events: seq<Event>)
    requires c.phase.Closed? && events != []
    ensures Follow(c, events) == None
  {
  }

  /** A client knows when a stream is over: it accepts no proper extension of
      one, and after a proper prefix it is still waiting. */
  lemma StreamIsFinal(r: WireResponse, k: nat, more: seq<Event>)
    requires Complete(r.output) && k <= |Stream(r)|
    ensures more != [] ==> Follow(START, Stream(r) + more) == None
    ensures Follow(START, Stream(r)[..k]).Some?
    ensures Follow(START, Stream(r)[..k]).value.phase.Closed? <==> k == |Stream(r)|
  {
    var events := Stream(r);
    var rest := events[k..];
    StreamRebuildsOutput(r);
    if more != [] {
      FollowConcat(START, events, more);
      ClosedAcceptsNothing(Follow(START, events).value, more);
    }
    assert events == events[..k] + rest;
    FollowConcat(START, events[..k], rest);
    if rest != [] && Follow(START, events[..k]).value.phase.Closed? {
      ClosedAcceptsNothing(Follow(START, events[..k]).value, rest);
    }
  }
}
