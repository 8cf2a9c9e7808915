/** Removing model reasoning from responses and from server-sent-event chunks. */
module Sanitize {
  import opened Common
  import opened Json

  // ---- Documents -----------------------------------------------------------

  const REASONING_KEYS := {"reasoning_content", "reasoning"}

  function Strip(j: Json): Json {
    match j
    case Arr(items) => Arr(seq(|items|, i requires 0 <= i < |items| => Strip(items[i])))
    case Obj(fields) => Obj(map k | k in fields && k !in REASONING_KEYS :: Strip(fields[k]))
    case _ => j
  }

  method StripReasoningFields(payload: Json) returns (stripped: Json)
    ensures stripped == Strip(payload)
    decreases payload
  {
    match payload {
      case Arr(items) =>
        var cleaned: seq<Json> := [];
        for i := 0 to |items|
          invariant |cleaned| == i
          invariant forall j | 0 <= j < i :: cleaned[j] == Strip(items[j])
        {
          var item := StripReasoningFields(items[i]);
          cleaned := cleaned + [item];
        }
        stripped := Arr(cleaned);
      case Obj(fields) =>
        var cleaned: map<string, Json> := map[];
        var pending := fields.Keys;
        while pending != {}
          invariant pending <= fields.Keys
          invariant cleaned.Keys == fields.Keys - pending - REASONING_KEYS
          invariant forall k | k in cleaned :: cleaned[k] == Strip(fields[k])
          decreases pending
        {
          var key :| key in pending;
          pending := pending - {key};
          if key !in REASONING_KEYS {
            var value := StripReasoningFields(fields[key]);
            cleaned := cleaned[key := value];
          }
        }
        stripped := Obj(cleaned);
      case _ => stripped := payload;
    }
  }

  datatype Step = Key(name: string) | Index(at: nat)

  function At(j: Json, path: seq<Step>): Option<Json> {
    if path == [] then Some(j)
    else
      match path[0]
      case Key(k) => if j.Obj? && k in j.fields then At(j.fields[k], path[1..]) else None
      case Index(i) => if j.Arr? && i < |j.items| then At(j.items[i], path[1..]) else None
  }

  predicate Reasoned(path: seq<Step>) {
    exists i | 0 <= i < |path| :: path[i] == Key("reasoning_content") || path[i] == Key("reasoning")
  }

  lemma ReasonedStep(path: seq<Step>)
    requires path != []
    ensures Reasoned(path) <==> path[0] == Key("reasoning_content") || path[0] == Key("reasoning") || Reasoned(path[1..])
  {
    var rest := path[1..];
    if i :| 0 <= i < |path| && (path[i] == Key("reasoning_content") || path[i] == Key("reasoning")) {
      if i > 0 { assert rest[i - 1] == path[i]; }
    }
    if i :| 0 <= i < |rest| && (rest[i] == Key("reasoning_content") || rest[i] == Key("reasoning")) {
      assert path[i + 1] == rest[i];
    }
  }

  /** A path through `reasoning_content` or `reasoning` leads nowhere afterwards;
      every other path leads where it led: to the same leaf, or to an object or
      a list of the same length. */
  lemma {:induction false} StripAtPath(j: Json, path: seq<Step>)
    ensures At(Strip(j), path) ==
            if Reasoned(path) then None
            else match At(j, path) { case Some(v) => Some(Strip(v)) case None => None }
    ensures !Reasoned(path) && At(j, path).Some? ==>
              match At(j, path).value
              case Obj(_) => At(Strip(j), path).value.Obj?
              case Arr(items) => At(Strip(j), path).value.Arr? && |At(Strip(j), path).value.items| == |items|
              case leaf => At(Strip(j), path) == Some(leaf)
    decreases path
  {
    if path != [] {
      var rest := path[1..];
      ReasonedStep(path);
      match path[0] {
        case Key(k) => if j.Obj? && k in j.fields { StripAtPath(j.fields[k], rest); }
        case Index(i) => if j.Arr? && i < |j.items| { StripAtPath(j.items[i], rest); }
      }
    }
  }

  lemma {:induction false} StripIdempotent(j: Json)
    ensures Strip(Strip(j)) == Strip(j)
  {
    match j {
      case Arr(items) =>
        forall i | 0 <= i < |items| ensures Strip(Strip(items[i])) == Strip(items[i]) {
          StripIdempotent(items[i]);
        }
      case Obj(fields) =>
        forall k | k in fields ensures Strip(Strip(fields[k])) == Strip(fields[k]) {
          StripIdempotent(fields[k]);
        }
        assert Strip(Strip(j)).fields == Strip(j).fields;
      case _ =>
    }
  }

  // ---- Event-stream chunks --------------------------------------------------

  newtype Byte = x: int | 0 <= x < 256
  type Bytes = seq<Byte>

  const NEWLINE: Byte := 10
  const DATA: Bytes := [100, 97, 116, 97, 58, 32]   // "data: "
  const DONE: Bytes := [91, 68, 79, 78, 69, 93]     // "[DONE]"

  /** A JSON reader and printer; `parse` yields None on text that is not JSON. */
  datatype Codec = Codec(parse: Bytes -> Option<Json>, print_: Json -> Bytes)

  /** A document that parsing can yield. */
  ghost predicate Readable(codec: Codec, j: Json) {
    exists text :: codec.parse(text) == Some(j)
  }

  /** What is used of a real codec: what it reads it also prints, on one line,
      not spelled like the end marker, and so that it reads the same again; and
      a document it reads is one it could read without its reasoning. */
  ghost predicate Faithful(codec: Codec) {
    forall j | Readable(codec, j) ::
      && codec.parse(codec.print_(j)) == Some(j)
      && NEWLINE !in codec.print_(j) && !(DONE <= codec.print_(j))
      && Readable(codec, Strip(j))
  }

  function Split(chunk: Bytes): (lines: seq<Bytes>)
    ensures lines != []
  {
    if chunk == [] then [[]]
    else
      var rest := Split(chunk[1..]);
      if chunk[0] == NEWLINE then [[]] + rest
      else [[chunk[0]] + rest[0]] + rest[1..]
  }

  function JoinLines(lines: seq<Bytes>): Bytes
    requires lines != []
  {
    if |lines| == 1 then lines[0] else lines[0] + [NEWLINE] + JoinLines(lines[1..])
  }

  function StripLine(codec: Codec, line: Bytes): Bytes {
    if DATA <= line && !(DATA + DONE <= line) then
      match codec.parse(line[6..])
      case Some(j) => DATA + codec.print_(Strip(j))
      case None => line
    else line
  }

  function StripLines(codec: Codec, lines: seq<Bytes>): seq<Bytes> {
    seq(|lines|, i requires 0 <= i < |lines| => StripLine(codec, lines[i]))
  }

  function StripChunk(codec: Codec, chunk: Bytes): Bytes {
    JoinLines(StripLines(codec, Split(chunk)))
  }

  method StripReasoningFromSseChunk(codec: Codec, chunk: Bytes) returns (stripped: Bytes)
    ensures stripped == StripChunk(codec, chunk)
  {
    var lines := Split(chunk);
    var out: seq<Bytes> := [];
    for i := 0 to |lines|
      invariant |out| == i
      invariant forall j | 0 <= j < i :: out[j] == StripLine(codec, lines[j])
    {
      var line := lines[i];
      if DATA <= line && !(DATA + DONE <= line) {
        match codec.parse(line[6..]) {
          case Some(data) =>
            var cleaned := StripReasoningFields(data);
            out := out + [DATA + codec.print_(cleaned)];
          case None => out := out + [line];
        }
      } else {
        out := out + [line];
      }
    }
    assert out == StripLines(codec, lines);
    stripped := JoinLines(out);
  }

  lemma {:induction false} SplitAtNewline(a: Bytes, b: Bytes)
    ensures Split(a + [NEWLINE] + b) == Split(a) + Split(b)
  {
    var whole := a + [NEWLINE] + b;
    if a == [] {
      assert whole == [NEWLINE] + b && whole[1..] == b;
    } else {
      assert whole[0] == a[0] && whole[1..] == a[1..] + [NEWLINE] + b;
      SplitAtNewline(a[1..], b);
      SplitStep(a);
      SplitStep(whole);
      LinesBehind([a[0]], Split(a[1..]), Split(b));
    }
  }

  lemma LinesBehind(head: Bytes, xs: seq<Bytes>, ys: seq<Bytes>)
    requires xs != []
    ensures [[]] + (xs + ys) == ([[]] + xs) + ys
    ensures [head + (xs + ys)[0]] + (xs + ys)[1..] == ([head + xs[0]] + xs[1..]) + ys
  {
  }

  lemma SplitStep(a: Bytes)
    requires a != []
    ensures var rest := Split(a[1..]);
            Split(a) == if a[0] == NEWLINE then [[]] + rest else [[a[0]] + rest[0]] + rest[1..]
  {
  }

  lemma {:induction false} JoinAppend(x: seq<Bytes>, y: seq<Bytes>)
    requires x != [] && y != []
    ensures JoinLines(x + y) == JoinLines(x) + [NEWLINE] + JoinLines(y)
  {
    assert (x + y)[0] == x[0] && (x + y)[1..] == x[1..] + y;
    if |x| == 1 {
      assert x[1..] + y == y;
    } else {
      JoinAppend(x[1..], y);
    }
  }

  predicate EndsLine(chunk: Bytes) {
    chunk == [] || chunk[|chunk| - 1] == NEWLINE
  }

  lemma StripAfterNewline(codec: Codec, a: Bytes, b: Bytes)
    ensures StripChunk(codec, a + [NEWLINE] + b)
            == StripChunk(codec, a) + [NEWLINE] + StripChunk(codec, b)
  {
    SplitAtNewline(a, b);
    var x, y := StripLines(codec, Split(a)), StripLines(codec, Split(b));
    assert StripLines(codec, Split(a) + Split(b)) == x + y;
    JoinAppend(x, y);
  }

  /** Cutting a stream just after a newline does not change what is sent. */
  lemma StripOfConcat(codec: Codec, a: Bytes, b: Bytes)
    requires EndsLine(a)
    ensures StripChunk(codec, a + b) == StripChunk(codec, a) + StripChunk(codec, b)
  {
    assert StripChunk(codec, []) == [] by {
      assert StripLines(codec, [[]]) == [[]];
    }
    if a == [] {
      assert a + b == b;
    } else {
      var front := a[..|a| - 1];
      assert a == front + [NEWLINE] + [] && a + b == front + [NEWLINE] + b;
      StripAfterNewline(codec, front, []);
      StripAfterNewline(codec, front, b);
      assert StripChunk(codec, a) == StripChunk(codec, front) + [NEWLINE];
    }
  }

  function Concat(chunks: seq<Bytes>): Bytes {
    if chunks == [] then [] else chunks[0] + Concat(chunks[1..])
  }

  /** The bytes sent for a stream that arrives as these chunks. */
  function Streamed(codec: Codec, chunks: seq<Bytes>): Bytes {
    if chunks == [] then [] else StripChunk(codec, chunks[0]) + Streamed(codec, chunks[1..])
  }

  predicate LineAligned(chunks: seq<Bytes>) {
    forall i | 0 <= i < |chunks| - 1 :: EndsLine(chunks[i])
  }

  /** Every line-aligned way of cutting a stream sends what stripping the whole
      stream at once would send. */
  lemma {:induction false} ChunkingIrrelevant(codec: Codec, chunks: seq<Bytes>)
    requires LineAligned(chunks)
    ensures Streamed(codec, chunks) == StripChunk(codec, Concat(chunks))
  {
    if chunks == [] {
      assert StripLines(codec, [[]]) == [[]];
    } else {
      var rest := chunks[1..];
      assert LineAligned(rest) by {
        forall i | 0 <= i < |rest| - 1 ensures EndsLine(rest[i]) { assert rest[i] == chunks[i + 1]; }
      }
      ChunkingIrrelevant(codec, rest);
      if rest == [] {
        assert chunks[0] + Concat(rest) == chunks[0];
      } else {
        StripOfConcat(codec, chunks[0], Concat(rest));
      }
    }
  }

  /** Alignment is needed: cut right after its "data: ", any document that
      carries reasoning is passed on whole, where the uncut line is stripped.
      (An empty line is no document, and no document starts like a data line.) */
  lemma MisalignedChunkingMatters(codec: Codec, j: Json)
    requires Faithful(codec) && codec.parse([]) == None
    requires Readable(codec, j) && !(DATA <= codec.print_(j)) && Strip(j) != j
    ensures Streamed(codec, [DATA, codec.print_(j)]) == DATA + codec.print_(j)
    ensures StripChunk(codec, Concat([DATA, codec.print_(j)])) == DATA + codec.print_(Strip(j))
    ensures DATA + codec.print_(j) != DATA + codec.print_(Strip(j))
  {
    var text := codec.print_(j);
    assert Readable(codec, Strip(j));
    TwoChunks(codec, DATA, text);
    StripOneLine(codec, DATA);
    StripOneLine(codec, text);
    StripOneLine(codec, DATA + text);
    assert (DATA + text)[6..] == text && (DATA + DONE)[6..] == DONE;
    assert (DATA + codec.print_(Strip(j)))[6..] == codec.print_(Strip(j));
  }

  lemma TwoChunks(codec: Codec, a: Bytes, b: Bytes)
    ensures Concat([a, b]) == a + b
    ensures Streamed(codec, [a, b]) == StripChunk(codec, a) + StripChunk(codec, b)
  {
    assert [a, b][1..] == [b] && [b][1..] == [];
    assert Concat([b]) == b && Streamed(codec, [b]) == StripChunk(codec, b);
  }

  lemma StripOneLine(codec: Codec, line: Bytes)
    requires NEWLINE !in line
    ensures StripChunk(codec, line) == StripLine(codec, line)
  {
    NoNewlineIsOneLine(line);
    assert StripLines(codec, [line]) == [StripLine(codec, line)];
  }

  lemma {:induction false} NoNewlineIsOneLine(line: Bytes)
    requires NEWLINE !in line
    ensures Split(line) == [line]
  {
    if line != [] {
      NoNewlineIsOneLine(line[1..]);
      assert line == [line[0]] + line[1..];
    }
  }

  lemma {:induction false} SplitJoin(lines: seq<Bytes>)
    requires lines != [] && forall l | l in lines :: NEWLINE !in l
    ensures Split(JoinLines(lines)) == lines
  {
    NoNewlineIsOneLine(lines[0]);
    if |lines| > 1 {
      SplitJoin(lines[1..]);
      SplitAtNewline(lines[0], JoinLines(lines[1..]));
    }
  }

  lemma {:induction false} SplitLinesClean(chunk: Bytes)
    ensures forall l | l in Split(chunk) :: NEWLINE !in l
  {
    if chunk != [] {
      SplitLinesClean(chunk[1..]);
    }
  }

  lemma StripLineStable(codec: Codec, line: Bytes)
    requires Faithful(codec) && NEWLINE !in line
    ensures StripLine(codec, StripLine(codec, line)) == StripLine(codec, line)
    ensures NEWLINE !in StripLine(codec, line)
  {
    if DATA <= line && !(DATA + DONE <= line) && codec.parse(line[6..]).Some? {
      var clean := Strip(codec.parse(line[6..]).value);
      var out := DATA + codec.print_(clean);
      assert Readable(codec, codec.parse(line[6..]).value) && Readable(codec, clean);
      assert out[6..] == codec.print_(clean);
      StripIdempotent(codec.parse(line[6..]).value);
      assert (DATA + DONE)[6..] == DONE;
    }
  }

  /** Sanitising a sanitised chunk changes nothing. */
  lemma StripChunkIdempotent(codec: Codec, chunk: Bytes)
    requires Faithful(codec)
    ensures StripChunk(codec, StripChunk(codec, chunk)) == StripChunk(codec, chunk)
  {
    var lines := Split(chunk);
    var out := StripLines(codec, lines);
    SplitLinesClean(chunk);
    forall i | 0 <= i < |lines|
      ensures StripLine(codec, out[i]) == out[i] && NEWLINE !in out[i]
    {
      StripLineStable(codec, lines[i]);
    }
    SplitJoin(out);
    assert StripLines(codec, out) == out;
  }

  function Ascii(text: string): Bytes
    requires forall i | 0 <= i < |text| :: text[i] < 128 as char
  {
    seq(|text|, i requires 0 <= i < |text| => text[i] as int as Byte)
  }

  /** Line by line: a line "data: " with a document, other than the end marker
      "[DONE]", goes out as the document without its reasoning; every other line
      goes out as it came, and no line is lost or added. */
  lemma LinesAreStripped(codec: Codec, chunk: Bytes, i: nat)
    requires Faithful(codec) && i < |Split(chunk)|
    ensures |Split(StripChunk(codec, chunk))| == |Split(chunk)|
    ensures var line, sent := Split(chunk)[i], Split(StripChunk(codec, chunk))[i];
            var parsed := if Ascii("data: ") <= line then codec.parse(line[|"data: "|..]) else None;
            if parsed.Some? && !(Ascii("data: [DONE]") <= line)
            then Ascii("data: ") <= sent && codec.parse(sent[|"data: "|..]) == Some(Strip(parsed.value))
            else sent == line
  {
    var lines := Split(chunk);
    var out := StripLines(codec, lines);
    assert DATA == Ascii("data: ") && DATA + DONE == Ascii("data: [DONE]");
    SplitLinesClean(chunk);
    forall k | 0 <= k < |lines| ensures NEWLINE !in out[k] {
      StripLineStable(codec, lines[k]);
    }
    SplitJoin(out);
    StrippedLine(codec, lines[i]);
  }

  lemma StrippedLine(codec: Codec, line: Bytes)
    requires Faithful(codec)
    ensures var sent := StripLine(codec, line);
            var parsed := if DATA <= line then codec.parse(line[6..]) else None;
            if parsed.Some? && !(DATA + DONE <= line)
            then DATA <= sent && codec.parse(sent[6..]) == Some(Strip(parsed.value))
            else sent == line
  {
    if DATA <= line && codec.parse(line[6..]).Some? {
      var j := codec.parse(line[6..]).value;
      assert Readable(codec, j) && Readable(codec, Strip(j));
      assert (DATA + codec.print_(Strip(j)))[6..] == codec.print_(Strip(j));
    }
  }

  // ---- Cuts anywhere ----------------------------------------------------------

  /** Two lists of lines where one list ends inside the line the other goes on with. */
  function Meet(xs: seq<Bytes>, ys: seq<Bytes>): (lines: seq<Bytes>)
    requires xs != [] && ys != []
    ensures |lines| == |xs| + |ys| - 1
  {
    xs[..|xs| - 1] + [xs[|xs| - 1] + ys[0]] + ys[1..]
  }

  lemma MeetStep(xs: seq<Bytes>, ys: seq<Bytes>)
    requires |xs| > 1 && ys != []
    ensures Meet(xs, ys) == [xs[0]] + Meet(xs[1..], ys)
  {
    assert xs[..|xs| - 1] == [xs[0]] + xs[1..][..|xs| - 2];
  }

  lemma {:induction false} SplitMeets(a: Bytes, b: Bytes)
    ensures Split(a + b) == Meet(Split(a), Split(b))
  {
    if a == [] {
      assert a + b == b && [] + Split(b)[0] == Split(b)[0];
    } else {
      assert (a + b)[0] == a[0] && (a + b)[1..] == a[1..] + b;
      SplitMeets(a[1..], b);
      MeetBehindNewline(Split(a[1..]), Split(b));
      MeetBehindByte([a[0]], Split(a[1..]), Split(b));
    }
  }

  lemma MeetBehindNewline(xs: seq<Bytes>, ys: seq<Bytes>)
    requires xs != [] && ys != []
    ensures [[]] + Meet(xs, ys) == Meet([[]] + xs, ys)
  {
    assert ([[]] + xs)[1..] == xs;
    MeetStep([[]] + xs, ys);
  }

  lemma MeetBehindByte(head: Bytes, xs: seq<Bytes>, ys: seq<Bytes>)
    requires xs != [] && ys != []
    ensures [head + Meet(xs, ys)[0]] + Meet(xs, ys)[1..] == Meet([head + xs[0]] + xs[1..], ys)
  {
    if |xs| == 1 {
      assert head + (xs[0] + ys[0]) == (head + xs[0]) + ys[0];
    } else {
      MeetStep(xs, ys);
      assert ([head + xs[0]] + xs[1..])[1..] == xs[1..];
      MeetStep([head + xs[0]] + xs[1..], ys);
    }
  }

  lemma {:induction false} JoinMeets(xs: seq<Bytes>, ys: seq<Bytes>)
    requires xs != [] && ys != []
    ensures JoinLines(xs) + JoinLines(ys) == JoinLines(Meet(xs, ys))
  {
    if |xs| == 1 {
      assert Meet(xs, ys)[0] == xs[0] + ys[0] && Meet(xs, ys)[1..] == ys[1..];
    } else {
      MeetStep(xs, ys);
      JoinMeets(xs[1..], ys);
      assert Meet(xs, ys)[1..] == Meet(xs[1..], ys);
    }
  }

  /** Lists of lines that differ in one line at most are joined to the same
      text only if they do not differ there either. */
  lemma {:induction false} JoinTellsApart(lines: seq<Bytes>, i: nat, u: Bytes, v: Bytes)
    requires i < |lines|
    ensures JoinLines(lines[i := u]) == JoinLines(lines[i := v]) <==> u == v
  {
    if |lines| > 1 {
      var x, y := lines[i := u], lines[i := v];
      if i == 0 {
        assert x[1..] == y[1..] == lines[1..];
        CancelTail(u, v, [NEWLINE] + JoinLines(lines[1..]));
        assert u + [NEWLINE] + JoinLines(lines[1..]) == u + ([NEWLINE] + JoinLines(lines[1..]));
        assert v + [NEWLINE] + JoinLines(lines[1..]) == v + ([NEWLINE] + JoinLines(lines[1..]));
      } else {
        assert x[1..] == lines[1..][i - 1 := u] && y[1..] == lines[1..][i - 1 := v];
        JoinTellsApart(lines[1..], i - 1, u, v);
        CancelHead(lines[0] + [NEWLINE], JoinLines(x[1..]), JoinLines(y[1..]));
      }
    }
  }

  lemma CancelTail(u: Bytes, v: Bytes, tail: Bytes)
    ensures u + tail == v + tail <==> u == v
  {
    if u + tail == v + tail {
      assert |u + tail| == |v + tail|;
      assert u == (u + tail)[..|u|] && v == (v + tail)[..|v|];
    }
  }

  lemma CancelHead(head: Bytes, u: Bytes, v: Bytes)
    ensures head + u == head + v <==> u == v
  {
    if head + u == head + v {
      assert u == (head + u)[|head|..] && v == (head + v)[|head|..];
    }
  }

  /** The part of a chunk after its last newline, and the part up to its first. */
  function LastFragment(chunk: Bytes): Bytes { Split(chunk)[|Split(chunk)| - 1] }
  function FirstFragment(chunk: Bytes): Bytes { Split(chunk)[0] }

  /** A cut anywhere is harmless exactly when stripping the two fragments of the
      line it cuts gives what stripping that line gives; nothing else matters. */
  lemma CutIsHarmlessIff(codec: Codec, a: Bytes, b: Bytes)
    ensures var x, y := LastFragment(a), FirstFragment(b);
            StripChunk(codec, a) + StripChunk(codec, b) == StripChunk(codec, a + b)
            <==> StripLine(codec, x) + StripLine(codec, y) == StripLine(codec, x + y)
  {
    var xs, ys := Split(a), Split(b);
    SplitMeets(a, b);
    JoinMeets(StripLines(codec, xs), StripLines(codec, ys));
    MeetingLines(codec, xs, ys);
  }

  lemma MeetingLines(codec: Codec, xs: seq<Bytes>, ys: seq<Bytes>)
    requires xs != [] && ys != []
    ensures var x, y := xs[|xs| - 1], ys[0];
            JoinLines(Meet(StripLines(codec, xs), StripLines(codec, ys))) == JoinLines(StripLines(codec, Meet(xs, ys)))
            <==> StripLine(codec, x) + StripLine(codec, y) == StripLine(codec, x + y)
  {
    hide StripLine, JoinLines;
    var i, x, y := |xs| - 1, xs[|xs| - 1], ys[0];
    var apart := Meet(StripLines(codec, xs), StripLines(codec, ys));
    assert apart == apart[i := StripLine(codec, x) + StripLine(codec, y)];
    assert StripLines(codec, Meet(xs, ys)) == apart[i := StripLine(codec, x + y)];
    JoinTellsApart(apart, i, StripLine(codec, x) + StripLine(codec, y), StripLine(codec, x + y));
  }

  /** When neither fragment is rewritten on its own, as with a document cut in
      two, the cut is harmless exactly when the line had nothing to strip. */
  lemma CutDocumentIsHarmlessIff(codec: Codec, a: Bytes, b: Bytes)
    requires StripLine(codec, LastFragment(a)) == LastFragment(a)
    requires StripLine(codec, FirstFragment(b)) == FirstFragment(b)
    ensures StripChunk(codec, a) + StripChunk(codec, b) == StripChunk(codec, a + b)
            <==> StripLine(codec, LastFragment(a) + FirstFragment(b)) == LastFragment(a) + FirstFragment(b)
  {
    CutIsHarmlessIff(codec, a, b);
  }

  // ---- Streams cut anywhere -----------------------------------------------------

  /** The lines of a stream, each as the fragments in which it arrives. */
  function Pieces(chunks: seq<Bytes>): (lines: seq<seq<Bytes>>)
    ensures lines != []
  {
    if chunks == [] then [[]] else InFront(Split(chunks[0]), Pieces(chunks[1..]))
  }

  /** The lines of a chunk put before later lines, the first of which goes on
      where the chunk ends. */
  function InFront(here: seq<Bytes>, later: seq<seq<Bytes>>): (lines: seq<seq<Bytes>>)
    requires here != [] && later != []
    ensures lines != []
  {
    var last := |here| - 1;
    seq(last, i requires 0 <= i < last => [here[i]]) + [[here[last]] + later[0]] + later[1..]
  }

  /** What is sent for a line: its fragments, stripped one by one. */
  function SentLine(codec: Codec, fragments: seq<Bytes>): Bytes {
    Concat(StripLines(codec, fragments))
  }

  function SentLines(codec: Codec, lines: seq<seq<Bytes>>): (sent: seq<Bytes>)
    ensures |sent| == |lines|
  {
    seq(|lines|, i requires 0 <= i < |lines| => SentLine(codec, lines[i]))
  }

  function WholeLines(lines: seq<seq<Bytes>>): (whole: seq<Bytes>)
    ensures |whole| == |lines|
  {
    seq(|lines|, i requires 0 <= i < |lines| => Concat(lines[i]))
  }

  lemma SentLineStep(codec: Codec, first: Bytes, rest: seq<Bytes>)
    ensures SentLine(codec, [first]) == StripLine(codec, first)
    ensures SentLine(codec, [first] + rest) == StripLine(codec, first) + SentLine(codec, rest)
    ensures Concat([first]) == first && Concat([first] + rest) == first + Concat(rest)
  {
    assert StripLines(codec, [first] + rest)[1..] == StripLines(codec, rest);
    assert ([first] + rest)[1..] == rest;
    assert StripLines(codec, [first]) == [StripLine(codec, first)];
    assert Concat([StripLine(codec, first)]) == StripLine(codec, first);
  }

  lemma InFrontLines(codec: Codec, here: seq<Bytes>, later: seq<seq<Bytes>>)
    requires here != [] && later != []
    ensures SentLines(codec, InFront(here, later)) == Meet(StripLines(codec, here), SentLines(codec, later))
    ensures WholeLines(InFront(here, later)) == Meet(here, WholeLines(later))
  {
    hide StripLine, SentLine, Concat;
    forall i | 0 <= i < |here|
      ensures SentLine(codec, [here[i]]) == StripLine(codec, here[i]) && Concat([here[i]]) == here[i]
    {
      SentLineStep(codec, here[i], []);
    }
    SentLineStep(codec, here[|here| - 1], later[0]);
  }

  lemma {:induction false} StreamedByPieces(codec: Codec, chunks: seq<Bytes>)
    ensures Streamed(codec, chunks) == JoinLines(SentLines(codec, Pieces(chunks)))
    ensures Split(Concat(chunks)) == WholeLines(Pieces(chunks))
  {
    if chunks == [] {
      assert SentLines(codec, [[]]) == [[]] && WholeLines([[]]) == [[]];
    } else {
      var here, later := Split(chunks[0]), Pieces(chunks[1..]);
      StreamedByPieces(codec, chunks[1..]);
      InFrontLines(codec, here, later);
      JoinMeets(StripLines(codec, here), SentLines(codec, later));
      SplitMeets(chunks[0], Concat(chunks[1..]));
    }
  }

  lemma {:induction false} PiecesAreClean(chunks: seq<Bytes>)
    ensures forall line, f | line in Pieces(chunks) && f in line :: NEWLINE !in f
  {
    if chunks != [] {
      SplitLinesClean(chunks[0]);
      PiecesAreClean(chunks[1..]);
    }
  }

  lemma {:induction false} SentLineIsClean(codec: Codec, fragments: seq<Bytes>)
    requires Faithful(codec) && forall f | f in fragments :: NEWLINE !in f
    ensures NEWLINE !in SentLine(codec, fragments)
    decreases fragments
  {
    if fragments != [] {
      StripLineStable(codec, fragments[0]);
      assert fragments == [fragments[0]] + fragments[1..];
      SentLineStep(codec, fragments[0], fragments[1..]);
      SentLineIsClean(codec, fragments[1..]);
    }
  }

  /** The exact condition for any way of cutting a stream into chunks: what is
      sent is what stripping the whole stream would send if and only if that is
      so for each line and the fragments in which it arrives. */
  lemma ChunkingIsHarmlessIff(codec: Codec, chunks: seq<Bytes>)
    requires Faithful(codec)
    ensures Streamed(codec, chunks) == StripChunk(codec, Concat(chunks))
            <==> forall line | line in Pieces(chunks) :: SentLine(codec, line) == StripLine(codec, Concat(line))
  {
    var lines := Pieces(chunks);
    var sent, stripped := SentLines(codec, lines), StripLines(codec, WholeLines(lines));
    StreamedByPieces(codec, chunks);
    PiecesAreClean(chunks);
    SplitLinesClean(Concat(chunks));
    forall i | 0 <= i < |lines| ensures NEWLINE !in sent[i] && NEWLINE !in stripped[i] {
      SentLineIsClean(codec, lines[i]);
      assert WholeLines(lines)[i] in Split(Concat(chunks));
      StripLineStable(codec, WholeLines(lines)[i]);
    }
    SplitJoin(sent);
    SplitJoin(stripped);
    assert sent == stripped <==> forall i | 0 <= i < |lines| :: sent[i] == stripped[i];
    forall i | 0 <= i < |lines|
      ensures sent[i] == stripped[i] <==> SentLine(codec, lines[i]) == StripLine(codec, Concat(lines[i])) {}
  }
}
