/** The Anthropic adapter (crates/llm/src/anthropic.rs): the server-sent-event framing loop, the stream
    accumulator, and the buffered form they must agree with. `parse` stands for the JSON parser. */
module Anthropic {
  import opened Wrappers
  import opened Llm
  import opened JsonRead

  datatype ProviderError = MissingStopReason | BadToolJson(name: string)

  // ---------------------------------------------------------------- the accumulator

  datatype StreamBlock = TextBlock(text: string) | ToolBlock(id: string, name: string, json: string) | IgnoredBlock

  /** What one stream event says to the accumulator. */
  datatype Event =
    | MessageStart(inputTokens: nat)
    | BlockStart(block: StreamBlock)
    | TextDelta(index: nat, text: string)
    | JsonDelta(index: nat, partial: string)
    | MessageDelta(stop: Option<string>, outputTokens: Option<nat>)
    | Failure
    | Noise

  function ReadBlock(block: Option<Json>): StreamBlock {
    var kind := AsStr(GetIn(block, "type"));
    if kind == Some("text") then TextBlock(OrElse(AsStr(GetIn(block, "text")), ""))
    else if kind == Some("tool_use") then
      ToolBlock(OrElse(AsStr(GetIn(block, "id")), ""), OrElse(AsStr(GetIn(block, "name")), ""), "")
    else IgnoredBlock
  }

  function ReadDelta(index: nat, delta: Option<Json>): Event {
    var kind := AsStr(GetIn(delta, "type"));
    if kind == Some("text_delta") then
      match AsStr(GetIn(delta, "text")) case None => Noise case Some(text) => TextDelta(index, text)
    else if kind == Some("input_json_delta") then
      match AsStr(GetIn(delta, "partial_json")) case None => Noise case Some(text) => JsonDelta(index, text)
    else Noise
  }

  /** The event a JSON payload carries. */
  function ReadEvent(event: Json): Event {
    var kind := OrElse(AsStr(Get(event, "type")), "");
    if kind == "message_start" then
      match GetIn(Get(event, "message"), "usage")
      case None => Noise
      case Some(usage) => MessageStart(OrElse(AsU64(Get(usage, "input_tokens")), 0))
    else if kind == "content_block_start" then BlockStart(ReadBlock(Get(event, "content_block")))
    else if kind == "content_block_delta" then ReadDelta(OrElse(AsU64(Get(event, "index")), 0), Get(event, "delta"))
    else if kind == "message_delta" then
      MessageDelta(AsStr(GetIn(Get(event, "delta"), "stop_reason")), AsU64(GetIn(Get(event, "usage"), "output_tokens")))
    else if kind == "error" then Failure
    else Noise
  }

  /** The accumulator's fields, and the text fragments forwarded so far. */
  datatype Acc = Acc(blocks: seq<StreamBlock>, stop: Option<string>, input: nat, output: nat, sent: seq<string>)

  const EMPTY := Acc([], None, 0, 0, [])

  /** One event's effect, event by event. */
  function Handled(a: Acc, e: Event): Acc {
    match e
    case MessageStart(n) => a.(input := n)
    case BlockStart(b) => a.(blocks := a.blocks + [b])
    case TextDelta(i, text) =>
      var forwarded := a.(sent := a.sent + [text]);
      if i < |a.blocks| && a.blocks[i].TextBlock?
      then forwarded.(blocks := a.blocks[i := TextBlock(a.blocks[i].text + text)])
      else forwarded
    case JsonDelta(i, text) =>
      if i < |a.blocks| && a.blocks[i].ToolBlock?
      then a.(blocks := a.blocks[i := a.blocks[i].(json := a.blocks[i].json + text)])
      else a
    case MessageDelta(stop, n) => a.(stop := if stop.Some? then stop else a.stop, output := OrElse(n, a.output))
    case Failure => a.(stop := Some("error"))
    case Noise => a
  }

  /** A text fragment is forwarded always, and added to its block if that is there and holds text; an argument
      fragment is added to its block if that is there and holds a call. No other block changes. */
  lemma FragmentsApply(a: Acc, i: nat, text: string)
    ensures var t := Handled(a, TextDelta(i, text));
      && t.(blocks := a.blocks, sent := a.sent) == a && t.sent == a.sent + [text] && |t.blocks| == |a.blocks|
      && forall k :: 0 <= k < |a.blocks| ==>
           t.blocks[k] == if k == i && a.blocks[k].TextBlock? then TextBlock(a.blocks[k].text + text) else a.blocks[k]
    ensures var t := Handled(a, JsonDelta(i, text));
      && t.(blocks := a.blocks) == a && |t.blocks| == |a.blocks|
      && forall k :: 0 <= k < |a.blocks| ==>
           t.blocks[k] == if k == i && a.blocks[k].ToolBlock?
                          then ToolBlock(a.blocks[k].id, a.blocks[k].name, a.blocks[k].json + text) else a.blocks[k]
  {}

  /** A later stop reason and a later count replace the earlier ones, a missing one does not; an error event
      is a stop reason of its own. */
  lemma LastWordCounts(a: Acc, stop: Option<string>, count: Option<nat>)
    ensures var t := Handled(a, MessageDelta(stop, count));
      && t.(stop := a.stop, output := a.output) == a
      && (stop.Some? ==> t.stop == stop) && (stop.None? ==> t.stop == a.stop)
      && (count.Some? ==> t.output == count.value) && (count.None? ==> t.output == a.output)
    ensures Handled(a, Failure) == a.(stop := Some("error")) && StopReasonOf("error") == Other("error")
  {}

  function Fold(a: Acc, es: seq<Event>): Acc
    decreases |es|
  {
    if es == [] then a else Fold(Handled(a, es[0]), es[1..])
  }

  /** What one accumulated block contributes: nothing for empty text and unknown blocks. */
  function Collected(parse: string -> Option<Json>, b: StreamBlock): Result<seq<ContentBlock>, ProviderError> {
    match b
    case TextBlock(text) => Ok(if text == "" then [] else [Text(text)])
    case ToolBlock(id, name, json) =>
      (match ParseArguments(parse, json)
       case None => Err(BadToolJson(name))
       case Some(input) => Ok([ToolUse(id, name, input)]))
    case IgnoredBlock => Ok([])
  }

  /** The blocks of the response; the first unparsable one is the error. */
  function Collect(parse: string -> Option<Json>, blocks: seq<StreamBlock>): Result<seq<ContentBlock>, ProviderError> {
    if blocks == [] then Ok([])
    else Both(Collected(parse, blocks[0]), Collect(parse, blocks[1..]))
  }

  function StopReasonOf(stop: string): StopReason {
    if stop == "end_turn" || stop == "stop_sequence" then EndTurn
    else if stop == "tool_use" then ToolUseStop
    else if stop == "max_tokens" then MaxTokens
    else Other(stop)
  }

  /** What the reasons Anthropic documents become; any other is handed on as it is. */
  lemma StopReasons(stop: string)
    ensures StopReasonOf("end_turn") == EndTurn && StopReasonOf("stop_sequence") == EndTurn
    ensures StopReasonOf("tool_use") == ToolUseStop && StopReasonOf("max_tokens") == MaxTokens
    ensures stop != "end_turn" && stop != "stop_sequence" && stop != "tool_use" && stop != "max_tokens" ==>
      StopReasonOf(stop) == Other(stop)
  {}

  /** What `finish` makes of the accumulated state. A missing stop reason counts as the end of the turn. */
  function Finished(parse: string -> Option<Json>, a: Acc): Result<Response, ProviderError> {
    match Collect(parse, a.blocks)
    case Err(e) => Err(e)
    case Ok(content) =>
      Ok(Response(content, if a.stop.None? then EndTurn else StopReasonOf(a.stop.value), Usage(a.input, a.output)))
  }

  lemma {:induction false} CollectSnoc(parse: string -> Option<Json>, blocks: seq<StreamBlock>, b: StreamBlock)
    ensures Collect(parse, blocks + [b]) == Both(Collect(parse, blocks), Collected(parse, b))
  {
    hide Collected;
    var one := Collected(parse, b);
    assert [b][1..] == [];
    if blocks == [] {
      assert blocks + [b] == [b];
      assert one.Ok? ==> one.value + [] == one.value && [] + one.value == one.value;
    } else {
      CollectSnoc(parse, blocks[1..], b);
      assert (blocks + [b])[1..] == blocks[1..] + [b];
      BothAssociates(Collected(parse, blocks[0]), Collect(parse, blocks[1..]), one);
    }
  }

  class StreamAccumulator {
    const parse: string -> Option<Json>
    var blocks: seq<StreamBlock>
    var stopReason: Option<string>
    var inputTokens: nat
    var outputTokens: nat
    /** The fragments sent to the delta sink, in order. */
    var sent: seq<string>

    function Value(): Acc
      reads this
    {
      Acc(blocks, stopReason, inputTokens, outputTokens, sent)
    }

    constructor (parse: string -> Option<Json>)
      ensures Value() == EMPTY && this.parse == parse
    {
      this.parse := parse;
      blocks, stopReason, inputTokens, outputTokens, sent := [], None, 0, 0, [];
    }

    /** `handle`. */
    method Handle(event: Json)
      modifies this
      ensures Value() == Handled(old(Value()), ReadEvent(event))
    {
      hide ReadEvent;
      match ReadEvent(event) {
        case MessageStart(n) => inputTokens := n;
        case BlockStart(block) => blocks := blocks + [block];
        case TextDelta(index, text) =>
          sent := sent + [text];
          if index < |blocks| && blocks[index].TextBlock? {
            blocks := blocks[index := TextBlock(blocks[index].text + text)];
          }
        case JsonDelta(index, partial) =>
          if index < |blocks| && blocks[index].ToolBlock? {
            blocks := blocks[index := blocks[index].(json := blocks[index].json + partial)];
          }
        case MessageDelta(stop, tokens) =>
          if stop.Some? {
            stopReason := stop;
          }
          if tokens.Some? {
            outputTokens := tokens.value;
          }
        case Failure => stopReason := Some("error");
        case Noise =>
      }
    }

    /** `finish`. */
    method Finish() returns (r: Result<Response, ProviderError>)
      ensures r == Finished(parse, Value())
    {
      hide ParseArguments, StopReasonOf;
      var content: seq<ContentBlock> := [];
      for i := 0 to |blocks|
        invariant Collect(parse, blocks[..i]) == Ok(content)
      {
        assert blocks[..i + 1] == blocks[..i] + [blocks[i]];
        CollectSnoc(parse, blocks[..i], blocks[i]);
        if blocks[i].ToolBlock? {
          var input := ParseArguments(parse, blocks[i].json);
          if input.None? {
            CollectFails(parse, blocks, i + 1);
            return Err(BadToolJson(blocks[i].name));
          }
          assert Collected(parse, blocks[i]) == Ok([ToolUse(blocks[i].id, blocks[i].name, input.value)]);
          content := content + [ToolUse(blocks[i].id, blocks[i].name, input.value)];
        } else if blocks[i].TextBlock? && blocks[i].text != "" {
          content := content + [Text(blocks[i].text)];
        } else {
          assert content + [] == content;
        }
      }
      assert blocks[..|blocks|] == blocks;
      var stop := if stopReason.None? then EndTurn else StopReasonOf(stopReason.value);
      r := Ok(Response(content, stop, Usage(inputTokens, outputTokens)));
    }
  }

  lemma {:induction false} CollectFails(parse: string -> Option<Json>, blocks: seq<StreamBlock>, n: nat)
    requires n <= |blocks| && Collect(parse, blocks[..n]).Err?
    ensures Collect(parse, blocks) == Collect(parse, blocks[..n])
    decreases |blocks|
  {
    if n == |blocks| {
      assert blocks[..n] == blocks;
    } else {
      var init := blocks[..|blocks| - 1];
      assert init[..n] == blocks[..n] && blocks == init + [blocks[|blocks| - 1]];
      CollectFails(parse, init, n);
      CollectSnoc(parse, init, blocks[|blocks| - 1]);
    }
  }

  // ---------------------------------------------------------------- the buffered form

  datatype WireBlock =
    | WireText(text: string)
    | WireToolUse(id: string, name: string, input: Json)
    | WireToolResult(toolUseId: string, content: string, isError: bool)
    | Unknown

  datatype WireResponse = WireResponse(content: seq<WireBlock>, stop: Option<string>, input: nat, output: nat)

  // Server tool results and unknown blocks are dropped.
  function FromBlock(b: WireBlock): seq<ContentBlock> {
    match b
    case WireText(text) => [Text(text)]
    case WireToolUse(id, name, input) => [ToolUse(id, name, input)]
    case _ => []
  }

  function FromBlocks(blocks: seq<WireBlock>): seq<ContentBlock> {
    if blocks == [] then []
    else FromBlock(blocks[0]) + FromBlocks(blocks[1..])
  }

  /** `from_wire`: here a missing stop reason is malformed. */
  function FromWire(w: WireResponse): Result<Response, ProviderError> {
    if w.stop.None? then Err(MissingStopReason)
    else Ok(Response(FromBlocks(w.content), StopReasonOf(w.stop.value), Usage(w.input, w.output)))
  }

  function DropEmptyText(content: seq<ContentBlock>): seq<ContentBlock> {
    if content == [] then []
    else (if content[0] == Text("") then [] else [content[0]]) + DropEmptyText(content[1..])
  }

  // ---------------------------------------------------------------- a message and its stream

  /** One content block as it is streamed: what its start carries, and the fragments that follow. */
  datatype Part =
    | TextPart(start: string, pieces: seq<string>)
    | ToolPart(id: string, name: string, pieces: seq<string>)
    | OtherPart

  function TextDeltas(index: nat, pieces: seq<string>): seq<Event> {
    seq(|pieces|, i requires 0 <= i < |pieces| => TextDelta(index, pieces[i]))
  }

  function JsonDeltas(index: nat, pieces: seq<string>): seq<Event> {
    seq(|pieces|, i requires 0 <= i < |pieces| => JsonDelta(index, pieces[i]))
  }

  /** The events of one block, all with the block's own index. */
  function PartEvents(p: Part, index: nat): seq<Event> {
    match p
    case TextPart(start, pieces) => [BlockStart(TextBlock(start))] + TextDeltas(index, pieces)
    case ToolPart(id, name, pieces) => [BlockStart(ToolBlock(id, name, ""))] + JsonDeltas(index, pieces)
    case OtherPart => [BlockStart(IgnoredBlock)]
  }

  /** The blocks one after the other, indices in order. */
  function PartsEvents(parts: seq<Part>, index: nat): seq<Event> {
    if parts == [] then [] else PartEvents(parts[0], index) + PartsEvents(parts[1..], index + 1)
  }

  /** The stream of a whole message, without the events the accumulator does not know. */
  function Script(parts: seq<Part>, stop: Option<string>, input: nat, output: nat): seq<Event> {
    [MessageStart(input)] + PartsEvents(parts, 0) + [MessageDelta(stop, Some(output))]
  }

  /** The same message as it would arrive whole. */
  function WirePart(parse: string -> Option<Json>, p: Part): WireBlock {
    match p
    case TextPart(start, pieces) => WireText(start + Concat(pieces))
    case ToolPart(id, name, pieces) =>
      WireToolUse(id, name, OrElse(ParseArguments(parse, Concat(pieces)), JNull))
    case OtherPart => Unknown
  }

  function WireParts(parse: string -> Option<Json>, parts: seq<Part>): seq<WireBlock> {
    if parts == [] then [] else [WirePart(parse, parts[0])] + WireParts(parse, parts[1..])
  }

  predicate Parses(parse: string -> Option<Json>, parts: seq<Part>) {
    forall p :: p in parts && p.ToolPart? ==> ParseArguments(parse, Concat(p.pieces)).Some?
  }

  /** The fragments of the text blocks, in stream order. */
  function TextPieces(parts: seq<Part>): seq<string> {
    if parts == [] then [] else (if parts[0].TextPart? then parts[0].pieces else []) + TextPieces(parts[1..])
  }

  function Built(p: Part): StreamBlock {
    match p
    case TextPart(start, pieces) => TextBlock(start + Concat(pieces))
    case ToolPart(id, name, pieces) => ToolBlock(id, name, Concat(pieces))
    case OtherPart => IgnoredBlock
  }

  function BuiltAll(parts: seq<Part>): seq<StreamBlock> {
    if parts == [] then [] else [Built(parts[0])] + BuiltAll(parts[1..])
  }

  function WithoutNoise(es: seq<Event>): seq<Event> {
    if es == [] then [] else (if es[0].Noise? then [] else [es[0]]) + WithoutNoise(es[1..])
  }

  /** Pings and other unknown events change nothing, wherever they come. */
  lemma {:induction false} NoiseIgnored(a: Acc, es: seq<Event>)
    ensures Fold(a, es) == Fold(a, WithoutNoise(es))
    decreases |es|
  {
    hide Handled;
    if es != [] {
      NoiseIgnored(Handled(a, es[0]), es[1..]);
      if es[0].Noise? {
        NoiseStep(a);
        assert WithoutNoise(es) == WithoutNoise(es[1..]);
      } else {
        assert WithoutNoise(es)[1..] == WithoutNoise(es[1..]);
      }
    }
  }

  lemma NoiseStep(a: Acc)
    ensures Handled(a, Noise) == a
  {
  }

  lemma {:induction false} FoldConcat(a: Acc, es: seq<Event>, fs: seq<Event>)
    ensures Fold(a, es + fs) == Fold(Fold(a, es), fs)
    decreases |es|
  {
    hide Handled;
    if es == [] {
      assert es + fs == fs;
    } else {
      assert (es + fs)[1..] == es[1..] + fs;
      FoldConcat(Handled(a, es[0]), es[1..], fs);
    }
  }

  lemma {:induction false} FoldText(a: Acc, index: nat, pieces: seq<string>)
    requires index < |a.blocks| && a.blocks[index].TextBlock?
    ensures Fold(a, TextDeltas(index, pieces))
         == a.(blocks := a.blocks[index := TextBlock(a.blocks[index].text + Concat(pieces))], sent := a.sent + pieces)
    decreases |pieces|
  {
    var text := a.blocks[index].text;
    if pieces == [] {
      assert text + "" == text;
      assert a.blocks[index := TextBlock(text)] == a.blocks;
      assert a.sent + pieces == a.sent;
    } else {
      assert TextDeltas(index, pieces)[1..] == TextDeltas(index, pieces[1..]);
      var b := Handled(a, TextDelta(index, pieces[0]));
      FoldText(b, index, pieces[1..]);
      assert a.sent + [pieces[0]] + pieces[1..] == a.sent + pieces;
      var after := TextBlock(text + Concat(pieces));
      assert (text + pieces[0]) + Concat(pieces[1..]) == text + Concat(pieces);
      assert b.blocks[index := after] == a.blocks[index := after];
    }
  }

  lemma {:induction false} FoldJson(a: Acc, index: nat, pieces: seq<string>)
    requires index < |a.blocks| && a.blocks[index].ToolBlock?
    ensures Fold(a, JsonDeltas(index, pieces))
         == a.(blocks := a.blocks[index := a.blocks[index].(json := a.blocks[index].json + Concat(pieces))])
    decreases |pieces|
  {
    var json := a.blocks[index].json;
    if pieces == [] {
      assert json + "" == json;
      assert a.blocks[index := a.blocks[index].(json := json)] == a.blocks;
    } else {
      assert JsonDeltas(index, pieces)[1..] == JsonDeltas(index, pieces[1..]);
      var b := Handled(a, JsonDelta(index, pieces[0]));
      FoldJson(b, index, pieces[1..]);
      var after := a.blocks[index].(json := json + Concat(pieces));
      assert (json + pieces[0]) + Concat(pieces[1..]) == json + Concat(pieces);
      assert b.blocks[index := after] == a.blocks[index := after];
    }
  }

  lemma FoldPart(a: Acc, p: Part)
    ensures Fold(a, PartEvents(p, |a.blocks|))
         == a.(blocks := a.blocks + [Built(p)], sent := a.sent + if p.TextPart? then p.pieces else [])
  {
    var k := |a.blocks|;
    match p {
      case TextPart(start, pieces) =>
        var b := Handled(a, BlockStart(TextBlock(start)));
        assert PartEvents(p, k)[1..] == TextDeltas(k, pieces);
        FoldText(b, k, pieces);
        assert b.blocks[k := Built(p)] == a.blocks + [Built(p)];
      case ToolPart(id, name, pieces) =>
        var b := Handled(a, BlockStart(ToolBlock(id, name, "")));
        assert PartEvents(p, k)[1..] == JsonDeltas(k, pieces);
        FoldJson(b, k, pieces);
        assert "" + Concat(pieces) == Concat(pieces);
        assert b.blocks[k := Built(p)] == a.blocks + [Built(p)];
        assert a.sent + [] == a.sent;
      case OtherPart =>
        assert PartEvents(p, k)[1..] == [];
        assert a.sent + [] == a.sent;
    }
  }

  lemma {:induction false} FoldParts(a: Acc, parts: seq<Part>)
    ensures Fold(a, PartsEvents(parts, |a.blocks|))
         == a.(blocks := a.blocks + BuiltAll(parts), sent := a.sent + TextPieces(parts))
    decreases |parts|
  {
    hide PartEvents, Built;
    if parts == [] {
      assert a.blocks + [] == a.blocks && a.sent + [] == a.sent;
    } else {
      var k := |a.blocks|;
      FoldPart(a, parts[0]);
      FoldConcat(a, PartEvents(parts[0], k), PartsEvents(parts[1..], k + 1));
      var b := Fold(a, PartEvents(parts[0], k));
      FoldParts(b, parts[1..]);
      assert b.blocks + BuiltAll(parts[1..]) == a.blocks + BuiltAll(parts);
      assert b.sent + TextPieces(parts[1..]) == a.sent + TextPieces(parts);
    }
  }

  /** Streaming a message, with unknown events anywhere in between, accumulates exactly its blocks, stop
      reason and token counts, and forwards exactly its text fragments, in order. */
  lemma ScriptAccumulates(es: seq<Event>, parts: seq<Part>, stop: Option<string>, input: nat, output: nat)
    requires WithoutNoise(es) == Script(parts, stop, input, output)
    ensures Fold(EMPTY, es) == Acc(BuiltAll(parts), stop, input, output, TextPieces(parts))
  {
    NoiseIgnored(EMPTY, es);
    var start, last := MessageStart(input), MessageDelta(stop, Some(output));
    var a := Handled(EMPTY, start);
    FoldConcat(EMPTY, [start] + PartsEvents(parts, 0), [last]);
    assert ([start] + PartsEvents(parts, 0))[1..] == PartsEvents(parts, 0);
    FoldParts(a, parts);
    assert [] + BuiltAll(parts) == BuiltAll(parts) && [] + TextPieces(parts) == TextPieces(parts);
    var b := Acc(BuiltAll(parts), None, input, 0, TextPieces(parts));
    assert Fold(EMPTY, [start] + PartsEvents(parts, 0)) == b;
    assert [last][1..] == [];
    assert Fold(b, [last]) == Handled(b, last);
  }

  // One block, streamed and whole.
  lemma PartMatches(parse: string -> Option<Json>, p: Part)
    ensures Collected(parse, Built(p)).Ok? <==> Parses(parse, [p])
    ensures Parses(parse, [p]) ==> Collected(parse, Built(p)) == Ok(DropEmptyText(FromBlocks([WirePart(parse, p)])))
  {
    hide ParseArguments;
    assert [WirePart(parse, p)][1..] == [];
    assert p in [p];
    FromBlocksOne(WirePart(parse, p));
    DropOne(Text(""));
    if p.TextPart? {
      DropOne(Text(p.start + Concat(p.pieces)));
    } else if p.ToolPart? {
      DropOne(ToolUse(p.id, p.name, OrElse(ParseArguments(parse, Concat(p.pieces)), JNull)));
    }
  }

  lemma FromBlocksOne(b: WireBlock)
    ensures FromBlocks([b]) == FromBlock(b)
  {
    assert [b][1..] == [] && FromBlocks([]) == [];
    assert FromBlock(b) + [] == FromBlock(b);
  }

  lemma DropOne(b: ContentBlock)
    ensures DropEmptyText([b]) == if b == Text("") then [] else [b]
  {
    assert [b][1..] == [] && DropEmptyText([]) == [];
  }

  lemma {:induction false} FromBlocksCons(b: WireBlock, bs: seq<WireBlock>)
    ensures FromBlocks([b] + bs) == FromBlocks([b]) + FromBlocks(bs)
  {
    FromBlocksOne(b);
    assert ([b] + bs)[1..] == bs;
  }

  lemma ParsesCons(parse: string -> Option<Json>, p: Part, rest: seq<Part>)
    ensures Parses(parse, [p] + rest) <==> Parses(parse, [p]) && Parses(parse, rest)
  {
    hide ParseArguments;
    assert p in [p];
    assert forall q :: q in [p] + rest <==> q == p || q in rest;
  }

  lemma {:induction false} CollectMatches(parse: string -> Option<Json>, parts: seq<Part>)
    ensures Collect(parse, BuiltAll(parts)).Ok? <==> Parses(parse, parts)
    ensures Parses(parse, parts) ==>
      Collect(parse, BuiltAll(parts)) == Ok(DropEmptyText(FromBlocks(WireParts(parse, parts))))
  {
    if parts != [] {
      var p, rest := parts[0], parts[1..];
      CollectMatches(parse, rest);
      assert BuiltAll(parts)[1..] == BuiltAll(rest) && parts == [p] + rest;
      hide Collected, Built, ParseArguments, Parses, FromBlocks, DropEmptyText, WirePart;
      PartMatches(parse, p);
      ParsesCons(parse, p, rest);
      FromBlocksCons(WirePart(parse, p), WireParts(parse, rest));
      DropConcat(FromBlocks([WirePart(parse, p)]), FromBlocks(WireParts(parse, rest)));
    }
  }

  lemma {:induction false} DropConcat(a: seq<ContentBlock>, b: seq<ContentBlock>)
    ensures DropEmptyText(a + b) == DropEmptyText(a) + DropEmptyText(b)
  {
    if a == [] {
      assert a + b == b;
    } else {
      DropConcat(a[1..], b);
      assert (a + b)[1..] == a[1..] + b;
      var first := if a[0] == Text("") then [] else [a[0]];
      assert first + (DropEmptyText(a[1..]) + DropEmptyText(b)) == (first + DropEmptyText(a[1..])) + DropEmptyText(b);
    }
  }

  /** Streaming refines buffering: for the events of a message, `finish` returns what `from_wire` returns
      for the same message whole, less the empty text blocks. The two differ in one more way: a message
      without a stop reason is malformed when buffered and an ended turn when streamed. */
  lemma StreamingRefinesBuffering(parse: string -> Option<Json>, es: seq<Event>, parts: seq<Part>,
                                  stop: Option<string>, input: nat, output: nat)
    requires WithoutNoise(es) == Script(parts, stop, input, output)
    ensures var whole, streamed := FromWire(WireResponse(WireParts(parse, parts), stop, input, output)),
                                   Finished(parse, Fold(EMPTY, es));
      && (streamed.Ok? <==> Parses(parse, parts))
      && (whole.Ok? <==> stop.Some?)
      && (streamed.Ok? && whole.Ok? ==> streamed == Ok(whole.value.(content := DropEmptyText(whole.value.content))))
      && (streamed.Ok? && stop.None? ==> streamed.value.stopReason == EndTurn)
    ensures Fold(EMPTY, es).sent == TextPieces(parts)
  {
    hide Collect, ParseArguments, Parses, StopReasonOf, DropEmptyText, FromBlocks;
    ScriptAccumulates(es, parts, stop, input, output);
    CollectMatches(parse, parts);
  }
}
