/** The Codex adapter (crates/llm/src/codex.rs): a response read into content blocks, and content blocks
    replayed as input items on the next turn. `show` and `parse` stand for the JSON printer and parser. */
module Codex {
  import opened Wrappers
  import opened Llm
  import opened JsonRead
  import opened Hashlines
  import Chat = ChatCompletions

  const OPAQUE_PROVIDER := "codex"

  // ---------------------------------------------------------------- items

  function TypeOf(item: Json): string {
    OrElse(AsStr(Get(item, "type")), "")
  }

  function OutputText(text: string): Json {
    JObject(map["type" := JString("output_text"), "text" := JString(text)])
  }

  function InputText(text: string): Json {
    JObject(map["type" := JString("input_text"), "text" := JString(text)])
  }

  function MessageItem(role: string, parts: seq<Json>): Json {
    JObject(map["type" := JString("message"), "role" := JString(role), "content" := JArray(parts)])
  }

  function CallItem(id: string, name: string, arguments: string): Json {
    JObject(map["type" := JString("function_call"), "call_id" := JString(id), "name" := JString(name),
                "arguments" := JString(arguments)])
  }

  function OutputItem(id: string, output: string): Json {
    JObject(map["type" := JString("function_call_output"), "call_id" := JString(id), "output" := JString(output)])
  }

  function NonEmpty(data: Json, key: string): bool {
    OrElse(AsStr(Get(data, key)), "") != ""
  }

  /** `replayable_reasoning`: what the backend accepts back. */
  predicate ReplayableReasoning(data: Json) {
    && AsStr(Get(data, "type")) == Some("reasoning") && NonEmpty(data, "id") && NonEmpty(data, "encrypted_content")
    && (Get(data, "summary").None? || Get(data, "summary").value.JArray?)
  }

  predicate Replays(b: ContentBlock) {
    b.Opaque? && b.provider == OPAQUE_PROVIDER && ReplayableReasoning(b.data)
  }

  // ---------------------------------------------------------------- to_input

  function Flush(parts: seq<Json>): seq<Json> {
    if parts == [] then [] else [MessageItem("assistant", parts)]
  }

  /** The items of an assistant message whose text so far is in `parts`. */
  function ItemsFrom(show: Json -> string, parts: seq<Json>, blocks: seq<ContentBlock>): seq<Json>
    decreases |blocks|
  {
    if blocks == [] then Flush(parts)
    else
      var b, rest := blocks[0], blocks[1..];
      if b.Text? && b.text != "" then ItemsFrom(show, parts + [OutputText(b.text)], rest)
      else if b.ToolUse? then Flush(parts) + [CallItem(b.id, b.name, show(b.input))] + ItemsFrom(show, [], rest)
      else if Replays(b) then Flush(parts) + [b.data] + ItemsFrom(show, [], rest)
      else ItemsFrom(show, parts, rest)
  }

  function Outputs(blocks: seq<ContentBlock>): seq<Json> {
    if blocks == [] then []
    else (if blocks[0].ToolResult?
          then [OutputItem(blocks[0].toolUseId, Chat.OutputText(blocks[0].content, blocks[0].isError))] else [])
         + Outputs(blocks[1..])
  }

  function InputTexts(blocks: seq<ContentBlock>): seq<Json> {
    if blocks == [] then []
    else (if blocks[0].Text? && blocks[0].text != "" then [InputText(blocks[0].text)] else []) + InputTexts(blocks[1..])
  }

  function UserSays(blocks: seq<ContentBlock>): seq<Json> {
    if InputTexts(blocks) == [] then [] else [MessageItem("user", InputTexts(blocks))]
  }

  function Items(show: Json -> string, m: Message): seq<Json> {
    if m.role.Assistant? then ItemsFrom(show, [], m.content) else Outputs(m.content) + UserSays(m.content)
  }

  function AllItems(show: Json -> string, ms: seq<Message>): seq<Json> {
    if ms == [] then [] else Items(show, ms[0]) + AllItems(show, ms[1..])
  }

  lemma Regroup(a: seq<Json>, b: seq<Json>, c: seq<Json>)
    ensures a + (b + c) == (a + b) + c
  {
  }

  lemma {:induction false} ItemsSnoc(show: Json -> string, ms: seq<Message>, m: Message)
    ensures AllItems(show, ms + [m]) == AllItems(show, ms) + Items(show, m)
  {
    hide Items;
    if ms == [] {
      assert ms + [m] == [m] && [m][1..] == [];
      assert Items(show, m) + [] == Items(show, m) == [] + Items(show, m);
    } else {
      ItemsSnoc(show, ms[1..], m);
      assert (ms + [m])[1..] == ms[1..] + [m];
      Regroup(Items(show, ms[0]), AllItems(show, ms[1..]), Items(show, m));
    }
  }

  /** `to_input`. */
  method ToInput(show: Json -> string, messages: seq<Message>) returns (out: seq<Json>)
    ensures out == AllItems(show, messages)
  {
    out := [];
    for i := 0 to |messages|
      invariant out == AllItems(show, messages[..i])
    {
      hide AllItems, ItemsFrom, Outputs, UserSays;
      assert messages[..i + 1] == messages[..i] + [messages[i]];
      ItemsSnoc(show, messages[..i], messages[i]);
      if messages[i].role.Assistant? {
        out := PushAssistant(show, out, messages[i].content);
      } else {
        out := PushUser(out, messages[i].content);
      }
    }
    assert messages[..|messages|] == messages;
  }

  method PushAssistant(show: Json -> string, before: seq<Json>, blocks: seq<ContentBlock>) returns (out: seq<Json>)
    ensures out == before + ItemsFrom(show, [], blocks)
  {
    hide ReplayableReasoning, OutputText, CallItem, MessageItem;
    out := before;
    var parts: seq<Json> := [];
    assert blocks[0..] == blocks;
    for j := 0 to |blocks|
      invariant out + ItemsFrom(show, parts, blocks[j..]) == before + ItemsFrom(show, [], blocks)
    {
      var b := blocks[j];
      assert blocks[j..][0] == b && blocks[j..][1..] == blocks[j + 1..];
      if b.Text? && b.text != "" {
        parts := parts + [OutputText(b.text)];
      } else if b.ToolUse? || Replays(b) {
        ghost var was := out;
        var item := if b.ToolUse? then CallItem(b.id, b.name, show(b.input)) else b.data;
        ghost var flushed, later := Flush(parts), ItemsFrom(show, [], blocks[j + 1..]);
        out := FlushParts(out, parts);
        parts := [];
        out := out + [item];
        hide ItemsFrom;
        Regroup(was, flushed, [item]);
        Regroup(was, flushed + [item], later);
      }
    }
    assert blocks[|blocks|..] == [];
    out := FlushParts(out, parts);
  }

  method FlushParts(before: seq<Json>, parts: seq<Json>) returns (out: seq<Json>)
    ensures out == before + Flush(parts)
  {
    out := before;
    if parts != [] {
      out := out + [MessageItem("assistant", parts)];
    } else {
      assert out + [] == out;
    }
  }

  lemma {:induction false} OutputsSnoc(bs: seq<ContentBlock>, b: ContentBlock)
    ensures Outputs(bs + [b]) == Outputs(bs) + Outputs([b]) && InputTexts(bs + [b]) == InputTexts(bs) + InputTexts([b])
  {
    hide OutputItem, InputText, Chat.OutputText;
    if bs == [] {
      assert bs + [b] == [b];
      assert [] + Outputs([b]) == Outputs([b]) && [] + InputTexts([b]) == InputTexts([b]);
    } else {
      OutputsSnoc(bs[1..], b);
      assert (bs + [b])[1..] == bs[1..] + [b];
      var first := Outputs(bs)[..|Outputs(bs)| - |Outputs(bs[1..])|];
      var said := InputTexts(bs)[..|InputTexts(bs)| - |InputTexts(bs[1..])|];
      Regroup(first, Outputs(bs[1..]), Outputs([b]));
      Regroup(said, InputTexts(bs[1..]), InputTexts([b]));
    }
  }

  lemma OneBlock(b: ContentBlock)
    ensures Outputs([b]) == if b.ToolResult? then [OutputItem(b.toolUseId, Chat.OutputText(b.content, b.isError))] else []
    ensures InputTexts([b]) == if b.Text? && b.text != "" then [InputText(b.text)] else []
  {
    assert [b][1..] == [];
  }

  method PushUser(before: seq<Json>, blocks: seq<ContentBlock>) returns (out: seq<Json>)
    ensures out == before + (Outputs(blocks) + UserSays(blocks))
  {
    out := before;
    var parts: seq<Json> := [];
    assert before + [] == before;
    for j := 0 to |blocks|
      invariant out == before + Outputs(blocks[..j]) && parts == InputTexts(blocks[..j])
    {
      hide OutputItem, InputText, Chat.OutputText, Outputs, InputTexts;
      var b := blocks[j];
      assert blocks[..j + 1] == blocks[..j] + [b];
      OutputsSnoc(blocks[..j], b);
      OneBlock(b);
      if b.ToolResult? {
        out := out + [OutputItem(b.toolUseId, Chat.OutputText(b.content, b.isError))];
      } else if b.Text? && b.text != "" {
        parts := parts + [InputText(b.text)];
      }
    }
    assert blocks[..|blocks|] == blocks;
    if parts != [] {
      out := out + [MessageItem("user", parts)];
      Regroup(before, Outputs(blocks), UserSays(blocks));
    } else {
      assert Outputs(blocks) + [] == Outputs(blocks);
    }
  }

  // ---------------------------------------------------------------- to_response

  datatype CodexError = Failed(message: string) | BadArguments | Undecodable | NotAnObject

  const DEFAULT_REFUSAL := "The model refused to provide a response."

  function PartText(part: Json): string {
    if TypeOf(part) == "output_text" then OrElse(AsStr(Get(part, "text")), "")
    else if TypeOf(part) == "refusal" then
      var refusal := OrElse(AsStr(Get(part, "refusal")), "");
      if refusal == "" then DEFAULT_REFUSAL else refusal
    else ""
  }

  /** The text of a message item, its parts run together. */
  function PartsText(parts: seq<Json>): string {
    if parts == [] then "" else PartText(parts[0]) + PartsText(parts[1..])
  }

  function MessageText(item: Json): string {
    PartsText(OrElse(AsArray(Get(item, "content")), []))
  }

  function CallOf(parse: string -> Option<Json>, item: Json): Option<ContentBlock> {
    match ParseArguments(parse, OrElse(AsStr(Get(item, "arguments")), ""))
    case None => None
    case Some(input) =>
      Some(ToolUse(OrElse(AsStr(Get(item, "call_id")), ""), OrElse(AsStr(Get(item, "name")), ""), input))
  }

  /** What one output item contributes. */
  function ItemContent(parse: string -> Option<Json>, item: Json): Result<seq<ContentBlock>, CodexError> {
    if TypeOf(item) == "message" then Ok(if MessageText(item) == "" then [] else [Text(MessageText(item))])
    else if TypeOf(item) == "function_call" then
      match CallOf(parse, item) case None => Err(BadArguments) case Some(call) => Ok([call])
    else if TypeOf(item) == "reasoning" then Ok([Opaque(OPAQUE_PROVIDER, item)])
    else Ok([])
  }

  function ContentOf(parse: string -> Option<Json>, items: seq<Json>): Result<seq<ContentBlock>, CodexError> {
    if items == [] then Ok([]) else Both(ItemContent(parse, items[0]), ContentOf(parse, items[1..]))
  }

  predicate SawCall(items: seq<Json>) {
    exists i :: 0 <= i < |items| && TypeOf(items[i]) == "function_call"
  }

  function StopOf(body: Json, items: seq<Json>): StopReason {
    if SawCall(items) then ToolUseStop
    else if AsStr(Get(body, "status")) == Some("incomplete")
            && AsStr(GetIn(Get(body, "incomplete_details"), "reason")) == Some("max_output_tokens") then MaxTokens
    else EndTurn
  }

  function UsageOf(body: Json): Usage {
    match Get(body, "usage")
    case None => Usage(0, 0)
    case Some(u) => Usage(OrElse(AsU64(Get(u, "input_tokens")), 0), OrElse(AsU64(Get(u, "output_tokens")), 0))
  }

  function ErrorMessage(body: Json): Option<string> {
    AsStr(GetIn(Get(body, "error"), "message"))
  }

  function OutputOf(body: Json): seq<Json> {
    OrElse(AsArray(Get(body, "output")), [])
  }

  /** The response a body stands for. */
  function ResponseOf(parse: string -> Option<Json>, body: Json): Result<Response, CodexError> {
    if ErrorMessage(body).Some? then Err(Failed("codex: " + ErrorMessage(body).value))
    else
      match ContentOf(parse, OutputOf(body))
      case Err(e) => Err(e)
      case Ok(content) => Ok(Response(content, StopOf(body, OutputOf(body)), UsageOf(body)))
  }

  /** A message item with one part, as the backend sends it. */
  function Says(part: Json): Json {
    JObject(map["type" := JString("message"), "content" := JArray([part])])
  }

  function RefusalPart(reason: string): Json {
    JObject(map["type" := JString("refusal"), "refusal" := JString(reason)])
  }

  function TextPart(text: string): Json {
    JObject(map["type" := JString("output_text"), "text" := JString(text)])
  }

  /** A text says itself, a refusal its reason, and a refusal without a reason a stock sentence; a text
      without a word is no block at all, and a part of any other kind says nothing. */
  lemma PartsSay(parse: string -> Option<Json>, text: string, other: Json)
    ensures ItemContent(parse, Says(TextPart(text))) == Ok(if text == "" then [] else [Text(text)])
    ensures ItemContent(parse, Says(RefusalPart(text)))
         == Ok([Text(if text == "" then "The model refused to provide a response." else text)])
    ensures TypeOf(other) != "output_text" && TypeOf(other) != "refusal" ==> ItemContent(parse, Says(other)) == Ok([])
  {
    OnePart(parse, TextPart(text));
    OnePart(parse, RefusalPart(text));
    OnePart(parse, other);
    assert AsStr(Get(TextPart(text), "text")) == Some(text);
    assert AsStr(Get(RefusalPart(text), "refusal")) == Some(text);
    hide ItemContent, Says;
  }

  lemma OnePart(parse: string -> Option<Json>, part: Json)
    ensures ItemContent(parse, Says(part)) == Ok(if PartText(part) == "" then [] else [Text(PartText(part))])
  {
    hide PartText;
    assert [part][1..] == [];
    assert PartText(part) + "" == PartText(part);
    assert TypeOf(Says(part)) == "message" && OrElse(AsArray(Get(Says(part), "content")), []) == [part];
    assert PartsText([part]) == PartText(part) + PartsText([]);
  }

  /** A terminal body, as the backend sends it. */
  function Body(items: seq<Json>, status: string, reason: string, input: string, output: string): Json {
    JObject(map["output" := JArray(items), "status" := JString(status),
                "incomplete_details" := JObject(map["reason" := JString(reason)]),
                "usage" := JObject(map["input_tokens" := JNumber(input), "output_tokens" := JNumber(output)])])
  }

  /** What such a body is read as: its counts as they are; tool use as soon as one item is a call; otherwise
      cut at the limit exactly when the backend says so by status and reason. */
  lemma BodyReads(parse: string -> Option<Json>, items: seq<Json>, status: string, reason: string, input: string, output: string)
    requires ContentOf(parse, items).Ok?
    ensures var r, called := ResponseOf(parse, Body(items, status, reason, input, output)),
                             exists i :: 0 <= i < |items| && TypeOf(items[i]) == "function_call";
      && r.Ok? && r.value.content == ContentOf(parse, items).value
      && (r.value.stopReason == ToolUseStop <==> called)
      && (r.value.stopReason == MaxTokens <==> !called && status == "incomplete" && reason == "max_output_tokens")
      && (r.value.stopReason == EndTurn <==> !called && !(status == "incomplete" && reason == "max_output_tokens"))
      && (forall n: nat :: input != "" && Digits(input) == Some(n) && n <= MAX_U64 ==> r.value.usage.inputTokens == n)
      && (forall n: nat :: output != "" && Digits(output) == Some(n) && n <= MAX_U64 ==> r.value.usage.outputTokens == n)
  {
    hide ContentOf, TypeOf;
  }

  function Reasoning(id: string, encrypted: string, summary: Option<Json>): Json {
    var fields := map["type" := JString("reasoning"), "id" := JString(id), "encrypted_content" := JString(encrypted)];
    JObject(if summary.None? then fields else fields["summary" := summary.value])
  }

  /** Reasoning is kept as it came, and goes back to the backend that sent it, and to no other, if it has an
      id and its encrypted content, and its summary, if it brings one, is a list. */
  lemma ReasoningReplays(parse: string -> Option<Json>, id: string, encrypted: string, summary: Option<Json>, b: ContentBlock)
    ensures var item := Reasoning(id, encrypted, summary);
      && ItemContent(parse, item) == Ok([Opaque("codex", item)])
      && (Replays(Opaque("codex", item)) <==> id != "" && encrypted != "" && (summary.None? || summary.value.JArray?))
    ensures Replays(b) ==> b.provider == "codex" && AsStr(Get(b.data, "type")) == Some("reasoning")
  {
    hide MessageText, CallOf;
    var item := Reasoning(id, encrypted, summary);
    assert AsStr(Get(item, "id")) == Some(id) && AsStr(Get(item, "encrypted_content")) == Some(encrypted);
    assert Get(item, "summary") == summary;
  }

  /** What is missing is read as empty: a call without fields, a text part without text, counts. */
  lemma BareItems(parse: string -> Option<Json>)
    ensures ItemContent(parse, JObject(map["type" := JString("function_call")])) == Ok([ToolUse("", "", JObject(map[]))])
    ensures ItemContent(parse, Says(JObject(map["type" := JString("output_text")]))) == Ok([])
    ensures ItemContent(parse, Says(JObject(map["type" := JString("refusal")])))
         == Ok([Text("The model refused to provide a response.")])
    ensures UsageOf(JObject(map["usage" := JObject(map[])])) == Usage(0, 0)
  {
    OnePart(parse, JObject(map["type" := JString("output_text")]));
    OnePart(parse, JObject(map["type" := JString("refusal")]));
    hide Says, PartsText;
    assert Trim("") == "";
  }

  /** A body with an error is that error, and a body without counts used none. */
  lemma BodyFails(parse: string -> Option<Json>, message: string)
    ensures ResponseOf(parse, JObject(map["error" := JObject(map["message" := JString(message)])]))
         == Err(Failed("codex: " + message))
    ensures ResponseOf(parse, JObject(map[])) == Ok(Response([], EndTurn, Usage(0, 0)))
  {}

  /** What a tool's result looks like as an input item. */
  predicate IsOutputItem(item: Json, b: ContentBlock)
    requires b.ToolResult?
  {
    && AsStr(Get(item, "type")) == Some("function_call_output") && AsStr(Get(item, "call_id")) == Some(b.toolUseId)
    && AsStr(Get(item, "output")) == Some(if b.isError then "ERROR: " + b.content else b.content)
  }

  lemma {:induction false} OutputAt(bs: seq<ContentBlock>, j: nat)
    requires j < |bs| && bs[j].ToolResult?
    ensures var i := |Outputs(bs[..j])|; i < |Outputs(bs)| && IsOutputItem(Outputs(bs)[i], bs[j])
    ensures |Outputs(bs[..j])| == |AnswersIn(bs[..j])|
  {
    if j > 0 {
      OutputAt(bs[1..], j - 1);
      assert bs[..j][1..] == bs[1..][..j - 1];
    }
  }

  lemma {:induction false} OutputCount(bs: seq<ContentBlock>)
    ensures |Outputs(bs)| == |AnswersIn(bs)|
  {
    if bs != [] {
      OutputCount(bs[1..]);
    }
  }

  predicate IsInputText(part: Json, text: string) {
    AsStr(Get(part, "type")) == Some("input_text") && AsStr(Get(part, "text")) == Some(text)
  }

  /** The texts of the text blocks that have any. */
  function SpokenTexts(bs: seq<ContentBlock>): seq<string> {
    if bs == [] then [] else (if bs[0].Text? && bs[0].text != "" then [bs[0].text] else []) + SpokenTexts(bs[1..])
  }

  lemma {:induction false} InputTextsSay(bs: seq<ContentBlock>)
    ensures |InputTexts(bs)| == |SpokenTexts(bs)|
    ensures forall i :: 0 <= i < |SpokenTexts(bs)| ==> IsInputText(InputTexts(bs)[i], SpokenTexts(bs)[i])
  {
    if bs != [] {
      InputTextsSay(bs[1..]);
    }
  }

  /** A user's message as input items: its tool results first, each with its own text, marked exactly if it
      is an error; then one message with all its texts, if it has any; and nothing else. */
  lemma UserReaches(show: Json -> string, m: Message)
    requires m.role.User?
    ensures var items, n, texts := Items(show, m), |AnswersIn(m.content)|, SpokenTexts(m.content);
      && |items| == n + (if texts == [] then 0 else 1)
      && (forall j :: 0 <= j < |m.content| && m.content[j].ToolResult? ==>
            |AnswersIn(m.content[..j])| < n && IsOutputItem(items[|AnswersIn(m.content[..j])|], m.content[j]))
      && (texts != [] ==>
            && AsStr(Get(items[n], "type")) == Some("message") && AsStr(Get(items[n], "role")) == Some("user")
            && AsArray(Get(items[n], "content")).Some?
            && var parts := AsArray(Get(items[n], "content")).value;
               |parts| == |texts| && forall i :: 0 <= i < |texts| ==> IsInputText(parts[i], texts[i]))
  {
    InputTextsSay(m.content);
    OutputCount(m.content);
    hide Outputs, AnswersIn, InputTexts, SpokenTexts, IsOutputItem, IsInputText;
    forall j | 0 <= j < |m.content| && m.content[j].ToolResult?
      ensures var i := |AnswersIn(m.content[..j])|; i < |Outputs(m.content)| && IsOutputItem(Outputs(m.content)[i], m.content[j])
    {
      OutputAt(m.content, j);
    }
  }

  lemma {:induction false} ContentSnoc(parse: string -> Option<Json>, items: seq<Json>, item: Json)
    ensures ContentOf(parse, items + [item]) == Both(ContentOf(parse, items), ItemContent(parse, item))
  {
    hide ItemContent;
    var one := ItemContent(parse, item);
    assert [item][1..] == [];
    if items == [] {
      assert items + [item] == [item];
      assert one.Ok? ==> one.value + [] == one.value && [] + one.value == one.value;
    } else {
      ContentSnoc(parse, items[1..], item);
      assert (items + [item])[1..] == items[1..] + [item];
      BothAssociates(ItemContent(parse, items[0]), ContentOf(parse, items[1..]), one);
    }
  }

  lemma {:induction false} ContentConcat(parse: string -> Option<Json>, a: seq<Json>, b: seq<Json>)
    ensures ContentOf(parse, a + b) == Both(ContentOf(parse, a), ContentOf(parse, b))
  {
    hide ItemContent;
    if a == [] {
      assert a + b == b;
      var all := ContentOf(parse, b);
      assert all.Ok? ==> [] + all.value == all.value;
    } else {
      ContentConcat(parse, a[1..], b);
      assert (a + b)[1..] == a[1..] + b;
      BothAssociates(ItemContent(parse, a[0]), ContentOf(parse, a[1..]), ContentOf(parse, b));
    }
  }

  lemma {:induction false} PartsTextConcat(a: seq<Json>, b: seq<Json>)
    ensures PartsText(a + b) == PartsText(a) + PartsText(b)
  {
    hide PartText;
    if a == [] {
      assert a + b == b;
    } else {
      PartsTextConcat(a[1..], b);
      assert (a + b)[1..] == a[1..] + b;
      assert PartText(a[0]) + (PartsText(a[1..]) + PartsText(b)) == (PartText(a[0]) + PartsText(a[1..])) + PartsText(b);
    }
  }

  lemma {:induction false} ContentFails(parse: string -> Option<Json>, items: seq<Json>, n: nat)
    requires n <= |items| && ContentOf(parse, items[..n]).Err?
    ensures ContentOf(parse, items) == ContentOf(parse, items[..n])
  {
    assert items == items[..n] + items[n..];
    ContentConcat(parse, items[..n], items[n..]);
  }

  lemma SawCallSnoc(items: seq<Json>, item: Json)
    ensures SawCall(items + [item]) <==> SawCall(items) || TypeOf(item) == "function_call"
  {
    hide TypeOf;
    var all := items + [item];
    assert forall i :: 0 <= i < |items| ==> all[i] == items[i];
    assert all[|items|] == item;
  }

  /** `to_response`. */
  method ToResponse(parse: string -> Option<Json>, body: Json) returns (r: Result<Response, CodexError>)
    ensures r == ResponseOf(parse, body)
  {
    hide PartText, ParseArguments, UsageOf, ErrorMessage, MessageText, CallOf;
    if ErrorMessage(body).Some? {
      return Err(Failed("codex: " + ErrorMessage(body).value));
    }
    var items := OutputOf(body);
    var content: seq<ContentBlock> := [];
    var sawToolCall := false;
    assert ContentOf(parse, items[..0]) == Ok(content);
    hide ContentOf, TypeOf, OutputOf;
    for i := 0 to |items|
      invariant ContentOf(parse, items[..i]) == Ok(content)
      invariant sawToolCall == SawCall(items[..i])
    {
      var item := items[i];
      assert items[..i + 1] == items[..i] + [item];
      ContentSnoc(parse, items[..i], item);
      SawCallSnoc(items[..i], item);
      hide SawCall;
      var kind := TypeOf(item);
      if kind == "message" {
        var text := ReadText(item);
        if text != "" {
          content := content + [Text(text)];
        } else {
          assert content + [] == content;
        }
      } else if kind == "function_call" {
        sawToolCall := true;
        var call := CallOf(parse, item);
        if call.None? {
          ContentFails(parse, items, i + 1);
          return Err(BadArguments);
        }
        content := content + [call.value];
      } else if kind == "reasoning" {
        content := content + [Opaque(OPAQUE_PROVIDER, item)];
      } else {
        assert content + [] == content;
      }
    }
    assert items[..|items|] == items;
    r := Ok(Response(content, StopOf(body, items), UsageOf(body)));
  }

  method ReadText(item: Json) returns (text: string)
    ensures text == MessageText(item)
  {
    hide PartText;
    var parts := OrElse(AsArray(Get(item, "content")), []);
    text := "";
    for k := 0 to |parts|
      invariant text == PartsText(parts[..k])
    {
      assert parts[..k + 1] == parts[..k] + [parts[k]];
      PartsTextConcat(parts[..k], [parts[k]]);
      assert PartsText([parts[k]]) == PartText(parts[k]) + "" by {
        assert [parts[k]][1..] == [];
      }
      text := text + PartText(parts[k]);
    }
    assert parts[..|parts|] == parts;
  }

  // ---------------------------------------------------------------- replay

  /** What an item list says, part by part and in order. */
  datatype Token = Said(text: string) | Called(call: ContentBlock) | Thought(item: Json)

  function PartTokens(parts: seq<Json>): seq<Token> {
    if parts == [] then [] else [Said(PartText(parts[0]))] + PartTokens(parts[1..])
  }

  /** An input item as the backend reads it. */
  function InputTokens(parse: string -> Option<Json>, item: Json): seq<Token> {
    if TypeOf(item) == "message" then PartTokens(OrElse(AsArray(Get(item, "content")), []))
    else if TypeOf(item) == "function_call" then
      match CallOf(parse, item) case None => [] case Some(call) => [Called(call)]
    else if TypeOf(item) == "reasoning" then [Thought(item)]
    else []
  }

  function AllInputTokens(parse: string -> Option<Json>, items: seq<Json>): seq<Token> {
    if items == [] then [] else InputTokens(parse, items[0]) + AllInputTokens(parse, items[1..])
  }

  /** An output item as it should come back: a message is one text, reasoning only where it is replayable. */
  function OutputTokens(parse: string -> Option<Json>, item: Json): seq<Token> {
    if TypeOf(item) == "message" then (if MessageText(item) == "" then [] else [Said(MessageText(item))])
    else if TypeOf(item) == "function_call" then
      match CallOf(parse, item) case None => [] case Some(call) => [Called(call)]
    else if ReplayableReasoning(item) then [Thought(item)]
    else []
  }

  function AllOutputTokens(parse: string -> Option<Json>, items: seq<Json>): seq<Token> {
    if items == [] then [] else OutputTokens(parse, items[0]) + AllOutputTokens(parse, items[1..])
  }

  /** What a content block says on replay. */
  function BlockTokens(b: ContentBlock): seq<Token> {
    if b.Text? && b.text != "" then [Said(b.text)]
    else if b.ToolUse? then [Called(b)]
    else if Replays(b) then [Thought(b.data)]
    else []
  }

  function AllBlockTokens(blocks: seq<ContentBlock>): seq<Token> {
    if blocks == [] then [] else BlockTokens(blocks[0]) + AllBlockTokens(blocks[1..])
  }

  lemma TokensAssociate(a: seq<Token>, b: seq<Token>, c: seq<Token>)
    ensures a + (b + c) == (a + b) + c
  {
  }

  lemma {:induction false} InputTokensConcat(parse: string -> Option<Json>, a: seq<Json>, b: seq<Json>)
    ensures AllInputTokens(parse, a + b) == AllInputTokens(parse, a) + AllInputTokens(parse, b)
  {
    hide InputTokens;
    if a == [] {
      assert a + b == b;
    } else {
      InputTokensConcat(parse, a[1..], b);
      assert (a + b)[1..] == a[1..] + b;
      TokensAssociate(InputTokens(parse, a[0]), AllInputTokens(parse, a[1..]), AllInputTokens(parse, b));
    }
  }

  lemma {:induction false} BlockTokensConcat(a: seq<ContentBlock>, b: seq<ContentBlock>)
    ensures AllBlockTokens(a + b) == AllBlockTokens(a) + AllBlockTokens(b)
  {
    hide BlockTokens;
    if a == [] {
      assert a + b == b;
    } else {
      BlockTokensConcat(a[1..], b);
      assert (a + b)[1..] == a[1..] + b;
      TokensAssociate(BlockTokens(a[0]), AllBlockTokens(a[1..]), AllBlockTokens(b));
    }
  }

  // Reading back the items that to_input builds.
  lemma BuiltItems(parse: string -> Option<Json>, show: Json -> string, id: string, name: string, input: Json)
    requires Inverse(parse, show) && Readable(parse, input)
    ensures TypeOf(CallItem(id, name, show(input))) == "function_call"
    ensures CallOf(parse, CallItem(id, name, show(input))) == Some(ToolUse(id, name, input))
  {
    hide ParseArguments, Readable;
  }

  lemma BuiltMessage(role: string, parts: seq<Json>)
    ensures TypeOf(MessageItem(role, parts)) == "message"
    ensures AsArray(Get(MessageItem(role, parts), "content")) == Some(parts)
  {
  }

  lemma BuiltText(text: string)
    ensures PartText(OutputText(text)) == text
  {
  }

  lemma {:induction false} PartTokensSnoc(parts: seq<Json>, part: Json)
    ensures PartTokens(parts + [part]) == PartTokens(parts) + [Said(PartText(part))]
  {
    hide PartText;
    if parts == [] {
      assert parts + [part] == [part] && [part][1..] == [];
    } else {
      PartTokensSnoc(parts[1..], part);
      assert (parts + [part])[1..] == parts[1..] + [part];
    }
  }

  lemma OneItem(parse: string -> Option<Json>, item: Json)
    ensures AllInputTokens(parse, [item]) == InputTokens(parse, item)
  {
    hide InputTokens;
    assert [item][1..] == [];
    assert InputTokens(parse, item) + [] == InputTokens(parse, item);
  }

  lemma FlushTokens(parse: string -> Option<Json>, parts: seq<Json>)
    ensures AllInputTokens(parse, Flush(parts)) == PartTokens(parts)
  {
    if parts != [] {
      hide MessageItem, PartTokens;
      BuiltMessage("assistant", parts);
      OneItem(parse, MessageItem("assistant", parts));
    }
  }

  /** Replaying a message says its blocks in order. */
  lemma {:induction false} ReplaySaysBlocks(parse: string -> Option<Json>, show: Json -> string, parts: seq<Json>,
                                            blocks: seq<ContentBlock>)
    requires Inverse(parse, show) && AllReadable(parse, blocks)
    ensures AllInputTokens(parse, ItemsFrom(show, parts, blocks)) == PartTokens(parts) + AllBlockTokens(blocks)
    decreases |blocks|
  {
    hide AllInputTokens, PartTokens, MessageItem, CallItem, OutputText, ReplayableReasoning, Flush, CallOf, PartText, TypeOf,
      Readable, Inverse;
    FlushTokens(parse, parts);
    if blocks == [] {
      assert PartTokens(parts) + [] == PartTokens(parts);
    } else {
      var b, rest := blocks[0], blocks[1..];
      assert b in blocks && forall x :: x in rest ==> x in blocks;
      if b.Text? && b.text != "" {
        ReplaySaysBlocks(parse, show, parts + [OutputText(b.text)], rest);
        PartTokensSnoc(parts, OutputText(b.text));
        BuiltText(b.text);
        TokensAssociate(PartTokens(parts), [Said(b.text)], AllBlockTokens(rest));
      } else if b.ToolUse? || Replays(b) {
        ReplaySaysBlocks(parse, show, [], rest);
        var item := if b.ToolUse? then CallItem(b.id, b.name, show(b.input)) else b.data;
        ItemSays(parse, show, b);
        ThreeSay(parse, Flush(parts), item, ItemsFrom(show, [], rest));
        NoParts();
        assert [] + AllBlockTokens(rest) == AllBlockTokens(rest);
        TokensAssociate(PartTokens(parts), BlockTokens(b), AllBlockTokens(rest));
      } else {
        ReplaySaysBlocks(parse, show, parts, rest);
        assert [] + AllBlockTokens(rest) == AllBlockTokens(rest);
      }
    }
  }

  lemma NoParts()
    ensures PartTokens([]) == []
  {
  }

  lemma ItemSays(parse: string -> Option<Json>, show: Json -> string, b: ContentBlock)
    requires Inverse(parse, show) && (b.ToolUse? || Replays(b)) && (b.ToolUse? ==> Readable(parse, b.input))
    ensures var item := if b.ToolUse? then CallItem(b.id, b.name, show(b.input)) else b.data;
      InputTokens(parse, item) == BlockTokens(b)
  {
    if b.ToolUse? {
      hide CallItem, CallOf, Readable, Inverse;
      BuiltItems(parse, show, b.id, b.name, b.input);
    }
  }

  lemma ThreeSay(parse: string -> Option<Json>, a: seq<Json>, item: Json, c: seq<Json>)
    ensures AllInputTokens(parse, a + [item] + c)
         == AllInputTokens(parse, a) + InputTokens(parse, item) + AllInputTokens(parse, c)
  {
    hide AllInputTokens, InputTokens;
    InputTokensConcat(parse, a + [item], c);
    InputTokensConcat(parse, a, [item]);
    OneItem(parse, item);
  }

  lemma {:induction false} ContentSaysItems(parse: string -> Option<Json>, items: seq<Json>)
    requires ContentOf(parse, items).Ok?
    ensures AllBlockTokens(ContentOf(parse, items).value) == AllOutputTokens(parse, items)
  {
    if items != [] {
      ContentSaysItems(parse, items[1..]);
      ItemSaysSame(parse, items[0]);
      hide ItemContent, OutputTokens, BlockTokens;
      BlockTokensConcat(ItemContent(parse, items[0]).value, ContentOf(parse, items[1..]).value);
    }
  }

  lemma ItemSaysSame(parse: string -> Option<Json>, item: Json)
    requires ItemContent(parse, item).Ok?
    ensures AllBlockTokens(ItemContent(parse, item).value) == OutputTokens(parse, item)
  {
    hide MessageText, ParseArguments, TypeOf, ReplayableReasoning;
    ThoughtsAreReasoning(item);
    var content := ItemContent(parse, item).value;
    if content != [] {
      assert content == [content[0]];
      OneBlockSays(content[0]);
    }
  }

  lemma OneBlockSays(b: ContentBlock)
    ensures AllBlockTokens([b]) == BlockTokens(b)
  {
    hide BlockTokens;
    assert [b][1..] == [];
    assert BlockTokens(b) + [] == BlockTokens(b);
  }

  lemma ThoughtsAreReasoning(item: Json)
    ensures ReplayableReasoning(item) ==> TypeOf(item) == "reasoning"
  {
  }

  // Arguments in a response were read from text.
  lemma {:induction false} ContentReadable(parse: string -> Option<Json>, items: seq<Json>)
    requires ContentOf(parse, items).Ok?
    ensures AllReadable(parse, ContentOf(parse, items).value)
  {
    if items != [] {
      ContentReadable(parse, items[1..]);
      CallReadable(parse, items[0]);
      hide ItemContent, Readable;
    }
  }

  lemma CallReadable(parse: string -> Option<Json>, item: Json)
    requires ItemContent(parse, item).Ok?
    ensures AllReadable(parse, ItemContent(parse, item).value)
  {
    hide ParseArguments, MessageText, TypeOf;
  }

  /** A response read and replayed reproduces its items in order: the same texts and calls, and the same
      reasoning items verbatim where the backend accepts them back. Only messages are merged. */
  lemma ReplayKeepsOrder(parse: string -> Option<Json>, show: Json -> string, body: Json)
    requires Inverse(parse, show) && ResponseOf(parse, body).Ok?
    ensures var content := ResponseOf(parse, body).value.content;
      AllInputTokens(parse, ItemsFrom(show, [], content)) == AllOutputTokens(parse, OutputOf(body))
  {
    hide ContentOf, AllInputTokens, AllOutputTokens, ItemsFrom, Inverse, AllReadable;
    var content := ResponseOf(parse, body).value.content;
    ContentReadable(parse, OutputOf(body));
    ReplaySaysBlocks(parse, show, [], content);
    NoParts();
    ContentSaysItems(parse, OutputOf(body));
    assert [] + AllBlockTokens(content) == AllBlockTokens(content);
  }

  /** Messages are merged as far as possible and no further: no two message items stand side by side, and
      every message item has a part. */
  predicate Merged(items: seq<Json>) {
    forall i :: 0 <= i < |items| && TypeOf(items[i]) == "message" ==>
      && OrElse(AsArray(Get(items[i], "content")), []) != []
      && (i + 1 < |items| ==> TypeOf(items[i + 1]) != "message")
  }

  lemma {:induction false} ReplayMerges(show: Json -> string, parts: seq<Json>, blocks: seq<ContentBlock>)
    ensures Merged(ItemsFrom(show, parts, blocks))
    decreases |blocks|
  {
    hide MessageItem, CallItem, OutputText, TypeOf, ReplayableReasoning;
    if blocks == [] {
      BuiltMessage("assistant", parts);
    } else {
      var b, rest := blocks[0], blocks[1..];
      if b.Text? && b.text != "" {
        ReplayMerges(show, parts + [OutputText(b.text)], rest);
      } else if b.ToolUse? || Replays(b) {
        ReplayMerges(show, [], rest);
        var item := if b.ToolUse? then CallItem(b.id, b.name, show(b.input)) else b.data;
        NoMessage(show, b);
        BuiltMessage("assistant", parts);
        var later := ItemsFrom(show, [], rest);
        var all := Flush(parts) + [item] + later;
        forall i | 0 <= i < |all| && TypeOf(all[i]) == "message"
          ensures OrElse(AsArray(Get(all[i], "content")), []) != []
          ensures i + 1 < |all| ==> TypeOf(all[i + 1]) != "message"
        {
          var n := |Flush(parts)| + 1;
          if i >= n {
            assert all[i] == later[i - n];
            assert i + 1 < |all| ==> all[i + 1] == later[i + 1 - n];
          }
        }
      } else {
        ReplayMerges(show, parts, rest);
      }
    }
  }

  lemma NoMessage(show: Json -> string, b: ContentBlock)
    requires b.ToolUse? || Replays(b)
    ensures TypeOf(if b.ToolUse? then CallItem(b.id, b.name, show(b.input)) else b.data) != "message"
  {
  }
}
