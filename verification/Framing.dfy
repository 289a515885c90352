/** The streaming read of crates/llm/src/anthropic.rs (`complete_streaming`): text chunks arrive cut
    anywhere, frames end at a blank line, and each `data:` line of a frame is one event. */
module Framing {
  import opened Wrappers
  import opened Llm
  import opened Ids
  import opened Hashlines
  import opened JsonRead
  import opened TextLines
  import opened Anthropic

  /** `find("\n\n")`: the first blank line. */
  function FindBlank(s: string): (r: Option<nat>)
    ensures r.Some? ==> r.value + 2 <= |s|
  {
    if |s| < 2 then None
    else if s[0] == '\n' && s[1] == '\n' then Some(0)
    else match FindBlank(s[1..]) case None => None case Some(p) => Some(p + 1)
  }

  predicate BlankAt(s: string, p: nat) {
    p + 2 <= |s| && s[p] == '\n' && s[p + 1] == '\n'
  }

  lemma {:induction false} FindBlankMeaning(s: string)
    ensures match FindBlank(s)
      case None => forall p: nat :: !BlankAt(s, p)
      case Some(k) => BlankAt(s, k) && forall p: nat :: p < k ==> !BlankAt(s, p)
  {
    if |s| >= 2 && !(s[0] == '\n' && s[1] == '\n') {
      FindBlankMeaning(s[1..]);
      forall p: nat | p > 0
        ensures BlankAt(s, p) <==> BlankAt(s[1..], p - 1)
      {
      }
    }
  }

  lemma FindBlankAt(s: string, k: nat)
    requires BlankAt(s, k) && forall p: nat :: p < k ==> !BlankAt(s, p)
    ensures FindBlank(s) == Some(k)
  {
    FindBlankMeaning(s);
  }

  /** The complete frames of a text, each with its blank line. */
  function Frames(s: string): seq<string>
    decreases |s|
  {
    match FindBlank(s)
    case None => []
    case Some(p) => [s[..p + 2]] + Frames(s[p + 2..])
  }

  /** What follows the last complete frame. */
  function Rest(s: string): string
    decreases |s|
  {
    match FindBlank(s)
    case None => s
    case Some(p) => Rest(s[p + 2..])
  }

  lemma FindBlankExtends(a: string, b: string)
    requires FindBlank(a).Some?
    ensures FindBlank(a + b) == FindBlank(a)
  {
    FindBlankMeaning(a);
    var p := FindBlank(a).value;
    forall q: nat | q < p
      ensures !BlankAt(a + b, q)
    {
      assert !BlankAt(a, q);
    }
    FindBlankAt(a + b, p);
  }

  /** Later text never changes a frame that is complete. */
  lemma {:induction false} FramesExtend(a: string, b: string)
    ensures Frames(a + b) == Frames(a) + Frames(Rest(a) + b)
    ensures Rest(a + b) == Rest(Rest(a) + b)
    decreases |a|
  {
    hide FindBlank;
    if FindBlank(a).None? {
      assert [] + Frames(a + b) == Frames(a + b);
    } else {
      var p := FindBlank(a).value;
      FindBlankExtends(a, b);
      assert (a + b)[..p + 2] == a[..p + 2] && (a + b)[p + 2..] == a[p + 2..] + b;
      FramesExtend(a[p + 2..], b);
      var first, more, later := [a[..p + 2]], Frames(a[p + 2..]), Frames(Rest(a[p + 2..]) + b);
      assert first + (more + later) == (first + more) + later;
    }
  }

  // ---------------------------------------------------------------- events of a text

  /** The events of the `data:` lines. Lines that are empty or not JSON are skipped. */
  function LineEvents(parse: string -> Option<Json>, lines: seq<string>): seq<Event> {
    if lines == [] then []
    else LineEvent(parse, lines[0]) + LineEvents(parse, lines[1..])
  }

  function LineEvent(parse: string -> Option<Json>, line: string): seq<Event> {
    if !("data:" <= line) || Trim(line[5..]) == "" then []
    else match parse(Trim(line[5..])) case None => [] case Some(event) => [ReadEvent(event)]
  }

  /** Which lines carry an event, and which: those that start with the field name and hold JSON behind it. */
  lemma LinesExactly(parse: string -> Option<Json>, line: string)
    ensures var data := if "data:" <= line then Trim(line[|"data:"|..]) else "";
      LineEvent(parse, line) == if data != "" && parse(data).Some? then [ReadEvent(parse(data).value)] else []
  {}

  function FrameEvents(parse: string -> Option<Json>, frames: seq<string>): seq<Event> {
    if frames == [] then [] else LineEvents(parse, LinesOf(frames[0])) + FrameEvents(parse, frames[1..])
  }

  /** The events of the complete frames of a text. */
  function EventsIn(parse: string -> Option<Json>, text: string): seq<Event> {
    FrameEvents(parse, Frames(text))
  }

  lemma {:induction false} FrameEventsConcat(parse: string -> Option<Json>, a: seq<string>, b: seq<string>)
    ensures FrameEvents(parse, a + b) == FrameEvents(parse, a) + FrameEvents(parse, b)
    decreases |a|
  {
    hide LineEvents, LinesOf;
    if a == [] {
      assert a + b == b;
    } else {
      FrameEventsConcat(parse, a[1..], b);
      assert (a + b)[1..] == a[1..] + b;
      var first := LineEvents(parse, LinesOf(a[0]));
      var more, later := FrameEvents(parse, a[1..]), FrameEvents(parse, b);
      assert first + (more + later) == (first + more) + later;
    }
  }

  lemma {:induction false} LineEventsSnoc(parse: string -> Option<Json>, lines: seq<string>, line: string)
    ensures LineEvents(parse, lines + [line]) == LineEvents(parse, lines) + LineEvent(parse, line)
  {
    hide LineEvent;
    if lines == [] {
      assert lines + [line] == [line] && [line][1..] == [];
      assert LineEvent(parse, line) + [] == LineEvent(parse, line);
    } else {
      LineEventsSnoc(parse, lines[1..], line);
      assert (lines + [line])[1..] == lines[1..] + [line];
    }
  }

  // ---------------------------------------------------------------- the read loop

  datatype ReadError = Transport | Refused(error: ProviderError)

  /** The text received before the transport failed, or all of it. */
  function Received(chunks: seq<Option<string>>): seq<string> {
    if chunks == [] || chunks[0].None? then [] else [chunks[0].value] + Received(chunks[1..])
  }

  /** What was received: every chunk up to the transport error, if there is one. */
  lemma {:induction false} ReceivedExactly(chunks: seq<Option<string>>, n: nat)
    requires n <= |chunks| && None !in chunks[..n] && (n < |chunks| ==> chunks[n].None?)
    ensures |Received(chunks)| == n && forall i :: 0 <= i < n ==> chunks[i] == Some(Received(chunks)[i])
    decreases n
  {
    if n > 0 {
      assert chunks[0] in chunks[..n];
      assert chunks[1..][..n - 1] == chunks[..n][1..];
      ReceivedExactly(chunks[1..], n - 1);
      forall i | 0 <= i < n
        ensures chunks[i] == Some(Received(chunks)[i])
      {
        if i > 0 {
          assert chunks[i] == chunks[1..][i - 1];
        }
      }
    }
  }

  /** The `data:` lines of one frame, each handed to the accumulator. */
  method HandleFrame(acc: StreamAccumulator, frame: string)
    modifies acc
    ensures acc.Value() == Fold(old(acc.Value()), LineEvents(acc.parse, LinesOf(frame)))
  {
    hide Handled, ReadEvent, LinesOf;
    var lines := LinesOf(frame);
    for i := 0 to |lines|
      invariant acc.Value() == Fold(old(acc.Value()), LineEvents(acc.parse, lines[..i]))
    {
      assert lines[..i + 1] == lines[..i] + [lines[i]];
      LineEventsSnoc(acc.parse, lines[..i], lines[i]);
      FoldConcat(old(acc.Value()), LineEvents(acc.parse, lines[..i]), LineEvent(acc.parse, lines[i]));
      if "data:" <= lines[i] {
        var data := Trim(lines[i][5..]);
        if data == "" {
          continue;
        }
        var event := acc.parse(data);
        if event.Some? {
          assert [ReadEvent(event.value)][1..] == [];
          acc.Handle(event.value);
        }
      }
    }
    assert lines[..|lines|] == lines;
  }

  /** `complete_streaming` once the connection stands. However the text is cut into chunks, the outcome
      and the fragments forwarded are those of the whole text. */
  method ReadStream(parse: string -> Option<Json>, chunks: seq<Option<string>>)
    returns (r: Result<Response, ReadError>, sent: seq<string>)
    ensures var all := Fold(EMPTY, EventsIn(parse, Concat(Received(chunks))));
      && sent == all.sent
      && r == if None in chunks then Err(Transport)
              else match Finished(parse, all) case Ok(response) => Ok(response) case Err(e) => Err(Refused(e))
  {
    hide FrameEvents, Frames, Rest, Finished, Fold;
    var buf := "";
    var acc := new StreamAccumulator(parse);
    ghost var text := "";
    NothingYet(parse);
    for i := 0 to |chunks|
      invariant fresh(acc) && acc.parse == parse
      invariant None !in chunks[..i] && text + Concat(Received(chunks[i..])) == Concat(Received(chunks))
      invariant acc.Value() == Fold(EMPTY, EventsIn(parse, text)) && buf == Rest(text)
    {
      if chunks[i].None? {
        assert text + "" == text;
        return Err(Transport), acc.sent;
      }
      ghost var before := text;
      text := before + chunks[i].value;
      FramesExtend(before, chunks[i].value);
      buf := buf + chunks[i].value;
      ghost var rest := Frames(buf);
      FrameEventsConcat(parse, Frames(before), rest);
      FoldConcat(EMPTY, EventsIn(parse, before), FrameEvents(parse, rest));
      buf := Drain(acc, buf);
      assert chunks[i..][1..] == chunks[i + 1..];
      assert before + (chunks[i].value + Concat(Received(chunks[i + 1..]))) == text + Concat(Received(chunks[i + 1..]));
    }
    assert text + "" == text;
    sent := acc.sent;
    var finished := acc.Finish();
    r := match finished case Ok(response) => Ok(response) case Err(e) => Err(Refused(e));
  }

  lemma NothingYet(parse: string -> Option<Json>)
    ensures Rest("") == "" && EventsIn(parse, "") == [] && Fold(EMPTY, []) == EMPTY
  {
  }

  /** Take every complete frame off the front of the buffer and handle its events. */
  method Drain(acc: StreamAccumulator, buffer: string) returns (buf: string)
    modifies acc
    ensures acc.Value() == Fold(old(acc.Value()), FrameEvents(acc.parse, Frames(buffer)))
    ensures buf == Rest(buffer)
  {
    hide Handled, LineEvents, LinesOf;
    buf := buffer;
    var pos := FindBlank(buf);
    while pos.Some?
      invariant pos == FindBlank(buf) && Rest(buf) == Rest(buffer)
      invariant Fold(acc.Value(), FrameEvents(acc.parse, Frames(buf)))
             == Fold(old(acc.Value()), FrameEvents(acc.parse, Frames(buffer)))
      decreases |buf|
    {
      var frame := buf[..pos.value + 2];
      ghost var later := Frames(buf[pos.value + 2..]);
      assert Frames(buf)[1..] == later;
      FoldConcat(acc.Value(), LineEvents(acc.parse, LinesOf(frame)), FrameEvents(acc.parse, later));
      HandleFrame(acc, frame);
      buf := buf[pos.value + 2..];
      pos := FindBlank(buf);
    }
  }

  // ---------------------------------------------------------------- what a server sends

  function Number(n: nat): Json {
    JNumber(Decimal(n))
  }

  /** An event as the server writes it. */
  function EventJson(e: Event): Json {
    match e
    case MessageStart(n) =>
      JObject(map["type" := JString("message_start"),
                  "message" := JObject(map["usage" := JObject(map["input_tokens" := Number(n)])])])
    case BlockStart(b) =>
      JObject(map["type" := JString("content_block_start"), "content_block" := BlockJson(b)])
    case TextDelta(i, text) =>
      JObject(map["type" := JString("content_block_delta"), "index" := Number(i),
                  "delta" := JObject(map["type" := JString("text_delta"), "text" := JString(text)])])
    case JsonDelta(i, text) =>
      JObject(map["type" := JString("content_block_delta"), "index" := Number(i),
                  "delta" := JObject(map["type" := JString("input_json_delta"), "partial_json" := JString(text)])])
    case MessageDelta(stop, n) =>
      JObject(map["type" := JString("message_delta"),
                  "delta" := JObject(map["stop_reason" := if stop.Some? then JString(stop.value) else JNull]),
                  "usage" := JObject(map["output_tokens" := if n.Some? then Number(n.value) else JNull])])
    case Failure => JObject(map["type" := JString("error")])
    case Noise => JObject(map["type" := JString("ping")])
  }

  function BlockJson(b: StreamBlock): Json {
    match b
    case TextBlock(text) => JObject(map["type" := JString("text"), "text" := JString(text)])
    case ToolBlock(id, name, _) => JObject(map["type" := JString("tool_use"), "id" := JString(id), "name" := JString(name)])
    case IgnoredBlock => JObject(map["type" := JString("thinking")])
  }

  /** Counts fit their width, and a tool block starts without arguments. */
  predicate Sendable(e: Event) {
    match e
    case MessageStart(n) => n <= MAX_U64
    case BlockStart(b) => b.ToolBlock? ==> b.json == ""
    case TextDelta(i, _) => i <= MAX_U64
    case JsonDelta(i, _) => i <= MAX_U64
    case MessageDelta(_, n) => n.Some? ==> n.value <= MAX_U64
    case _ => true
  }

  lemma NumberReads(n: nat)
    requires n <= MAX_U64
    ensures AsU64(Some(Number(n))) == Some(n)
  {
    DecimalDigits(n);
  }

  lemma TextDeltaReadsBack(i: nat, text: string)
    requires i <= MAX_U64
    ensures ReadEvent(EventJson(TextDelta(i, text))) == TextDelta(i, text)
  {
    hide AsU64, Number;
    NumberReads(i);
  }

  lemma JsonDeltaReadsBack(i: nat, text: string)
    requires i <= MAX_U64
    ensures ReadEvent(EventJson(JsonDelta(i, text))) == JsonDelta(i, text)
  {
    hide AsU64, Number;
    NumberReads(i);
  }

  lemma MessageDeltaReadsBack(stop: Option<string>, n: Option<nat>)
    requires n.Some? ==> n.value <= MAX_U64
    ensures ReadEvent(EventJson(MessageDelta(stop, n))) == MessageDelta(stop, n)
  {
    hide AsU64, Number;
    NullIsNoNumber();
    if n.Some? {
      NumberReads(n.value);
    }
  }

  lemma BlockReadsBack(b: StreamBlock)
    requires b.ToolBlock? ==> b.json == ""
    ensures ReadEvent(EventJson(BlockStart(b))) == BlockStart(b)
  {
  }

  /** Every event is read back as it was written. */
  lemma EventReadsBack(e: Event)
    requires Sendable(e)
    ensures ReadEvent(EventJson(e)) == e
  {
    match e {
      case MessageStart(n) =>
        hide AsU64, Number;
        NumberReads(n);
      case BlockStart(b) =>
        hide EventJson, ReadEvent;
        BlockReadsBack(b);
      case TextDelta(i, text) =>
        hide EventJson, ReadEvent;
        TextDeltaReadsBack(i, text);
      case JsonDelta(i, text) =>
        hide EventJson, ReadEvent;
        JsonDeltaReadsBack(i, text);
      case MessageDelta(stop, n) =>
        hide EventJson, ReadEvent;
        MessageDeltaReadsBack(stop, n);
      case _ =>
    }
  }

  lemma NullIsNoNumber()
    ensures AsU64(Some(JNull)) == None
  {
  }

  /** The printer writes `v` as one trimmed line, and the parser reads it back. */
  predicate Prints(parse: string -> Option<Json>, show: Json -> string, v: Json) {
    parse(show(v)) == Some(v) && '\n' !in show(v) && show(v) != "" && Trim(show(v)) == show(v)
  }

  function Frame(name: string, data: string): string {
    "event: " + name + "\n" + "data: " + data + "\n\n"
  }

  /** The text of a stream: each payload in a frame of its own, under its own event name. */
  function Encode(show: Json -> string, names: seq<string>, payloads: seq<Json>): string
    requires |names| == |payloads|
  {
    if payloads == [] then "" else Frame(names[0], show(payloads[0])) + Encode(show, names[1..], payloads[1..])
  }

  function ReadAll(payloads: seq<Json>): (es: seq<Event>)
    ensures |es| == |payloads| && forall i :: 0 <= i < |es| ==> es[i] == ReadEvent(payloads[i])
  {
    if payloads == [] then [] else [ReadEvent(payloads[0])] + ReadAll(payloads[1..])
  }

  lemma FrameEnds(name: string, data: string, rest: string)
    requires '\n' !in name && '\n' !in data
    ensures FindBlank(Frame(name, data) + rest) == Some(|Frame(name, data)| - 2)
  {
    var s, k := Frame(name, data) + rest, |Frame(name, data)| - 2;
    var one, two := "event: " + name, "data: " + data;
    assert s == one + "\n" + two + "\n\n" + rest;
    forall p: nat | p < k
      ensures !BlankAt(s, p)
    {
      if p < |one| {
        assert s[p] == one[p];
      } else if p == |one| {
        assert s[p + 1] == two[0];
      } else {
        assert s[p] == two[p - |one| - 1];
      }
    }
    FindBlankAt(s, k);
  }

  lemma TrimmedEnd(data: string)
    requires Trim(data) == data && data != ""
    ensures !IsWhite(data[0]) && !IsWhite(data[|data| - 1])
    ensures TrimStart(data) == data && TrimEnd(data) == data
  {
    TrimStartShortens(data);
    TrimEndShortens(TrimStart(data));
  }

  lemma {:induction false} TrimStartShortens(s: string)
    ensures |TrimStart(s)| <= |s| && (s != "" && IsWhite(s[0]) ==> |TrimStart(s)| < |s|)
  {
    if s != "" && IsWhite(s[0]) {
      TrimStartShortens(s[1..]);
    }
  }

  lemma {:induction false} TrimEndShortens(s: string)
    ensures |TrimEnd(s)| <= |s| && (s != "" && IsWhite(s[|s| - 1]) ==> |TrimEnd(s)| < |s|)
  {
    if s != "" && IsWhite(s[|s| - 1]) {
      TrimEndShortens(s[..|s| - 1]);
    }
  }

  lemma DataLine(parse: string -> Option<Json>, data: string)
    requires Trim(data) == data && data != "" && parse(data).Some?
    ensures LineEvent(parse, "data: " + data) == [ReadEvent(parse(data).value)]
  {
    hide ReadEvent;
    TrimmedEnd(data);
    var line := "data: " + data;
    assert line[5..] == " " + data;
    assert (" " + data)[1..] == data;
    hide TrimEnd;
    assert TrimStart(" " + data) == TrimStart(data) == data;
  }

  lemma FrameLines(name: string, data: string)
    requires '\n' !in name && '\n' !in data && Trim(data) == data && data != ""
    ensures LinesOf(Frame(name, data)) == [Chomp("event: " + name), "data: " + data, ""]
  {
    hide Trim, LinesOf;
    var one, two := "event: " + name, "data: " + data;
    NoReturnAtEnd(data);
    NoLines();
    assert Frame(name, data) == one + "\n" + (two + "\n" + ("" + "\n" + ""));
    LinesOfCons(one, two + "\n" + ("" + "\n" + ""));
    LinesOfCons(two, "" + "\n" + "");
    LinesOfCons("", "");
  }

  lemma NoLines()
    ensures LinesOf("") == []
  {
  }

  lemma {:induction false} ThreeLines(parse: string -> Option<Json>, a: string, b: string, c: string)
    ensures LineEvents(parse, [a, b, c]) == LineEvent(parse, a) + LineEvent(parse, b) + LineEvent(parse, c)
  {
    hide LineEvent;
    assert [a, b, c] == [] + [a] + [b] + [c];
    LineEventsSnoc(parse, [] + [a] + [b], c);
    LineEventsSnoc(parse, [] + [a], b);
    LineEventsSnoc(parse, [], a);
  }

  lemma FrameCarries(parse: string -> Option<Json>, name: string, data: string)
    requires '\n' !in name && '\n' !in data && Trim(data) == data && data != "" && parse(data).Some?
    ensures LineEvents(parse, LinesOf(Frame(name, data))) == [ReadEvent(parse(data).value)]
  {
    hide ReadEvent, LineEvent, LineEvents, Trim, LinesOf, Frame;
    FrameLines(name, data);
    ThreeLines(parse, Chomp("event: " + name), "data: " + data, "");
    DataLine(parse, data);
    OtherLine(parse, Chomp("event: " + name));
    OtherLine(parse, "");
  }

  lemma NoReturnAtEnd(data: string)
    requires Trim(data) == data && data != ""
    ensures !EndsInReturn("data: " + data)
  {
    TrimmedEnd(data);
  }

  lemma OtherLine(parse: string -> Option<Json>, line: string)
    requires line == "" || line[0] == 'e'
    ensures LineEvent(parse, line) == []
  {
  }

  /** A stream a server can send: one line for every payload and every event name. */
  predicate Sent(parse: string -> Option<Json>, show: Json -> string, names: seq<string>, payloads: seq<Json>) {
    && |names| == |payloads|
    && (forall v :: v in payloads ==> Prints(parse, show, v))
    && (forall name :: name in names ==> '\n' !in name)
  }

  lemma SentTail(parse: string -> Option<Json>, show: Json -> string, names: seq<string>, payloads: seq<Json>)
    requires Sent(parse, show, names, payloads) && payloads != []
    ensures Sent(parse, show, names[1..], payloads[1..]) && Prints(parse, show, payloads[0]) && '\n' !in names[0]
  {
    hide Prints;
    assert forall v :: v in payloads[1..] ==> v in payloads;
    assert forall name :: name in names[1..] ==> name in names;
    assert names[0] in names && payloads[0] in payloads;
  }

  /** The framing loses nothing: the payloads are read back one by one, each under its own event name. */
  lemma {:induction false} StreamReadsBack(parse: string -> Option<Json>, show: Json -> string, names: seq<string>,
                                           payloads: seq<Json>)
    requires Sent(parse, show, names, payloads)
    ensures EventsIn(parse, Encode(show, names, payloads)) == ReadAll(payloads)
    decreases |payloads|
  {
    assert |names| == |payloads|;
    hide ReadEvent, LineEvents, LinesOf, Frame, Sent;
    if payloads != [] {
      SentTail(parse, show, names, payloads);
      var name, data := names[0], show(payloads[0]);
      var rest := Encode(show, names[1..], payloads[1..]);
      StreamReadsBack(parse, show, names[1..], payloads[1..]);
      FrameEnds(name, data, rest);
      var frame := Frame(name, data);
      assert (frame + rest)[..|frame|] == frame && (frame + rest)[|frame|..] == rest;
      assert Frames(frame + rest) == [frame] + Frames(rest);
      assert ([frame] + Frames(rest))[1..] == Frames(rest);
      FrameCarries(parse, name, data);
    }
  }

  /** A message streamed in any chunks gives the response of the message received whole, less empty text
      blocks, and forwards exactly its text fragments. */
  lemma StreamedMessage(parse: string -> Option<Json>, show: Json -> string, names: seq<string>, payloads: seq<Json>,
                        parts: seq<Part>, stop: Option<string>, input: nat, output: nat, chunks: seq<Option<string>>)
    requires Sent(parse, show, names, payloads)
    requires WithoutNoise(ReadAll(payloads)) == Script(parts, stop, input, output)
    requires None !in chunks && Concat(Received(chunks)) == Encode(show, names, payloads)
    ensures var all, whole := Fold(EMPTY, EventsIn(parse, Concat(Received(chunks)))),
                              FromWire(WireResponse(WireParts(parse, parts), stop, input, output));
      && all.sent == TextPieces(parts)
      && (Parses(parse, parts) && stop.Some? ==>
            whole.Ok? && Finished(parse, all) == Ok(whole.value.(content := DropEmptyText(whole.value.content))))
  {
    hide EventsIn, Fold, Finished, Parses, Sent, DropEmptyText, FromBlocks;
    StreamReadsBack(parse, show, names, payloads);
    StreamingRefinesBuffering(parse, ReadAll(payloads), parts, stop, input, output);
  }
}
