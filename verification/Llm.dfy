/** The provider-neutral conversation types of crates/llm/src/lib.rs. */
module Llm {

  /** A JSON value. Numbers keep their decimal text: no code here does arithmetic on them. */
  datatype Json =
    | JNull
    | JBool(b: bool)
    | JNumber(text: string)
    | JString(s: string)
    | JArray(items: seq<Json>)
    | JObject(fields: map<string, Json>)

  datatype Role = User | Assistant

  datatype ContentBlock =
    | Text(text: string)
    | ToolUse(id: string, name: string, input: Json)
    | ToolResult(toolUseId: string, content: string, isError: bool)
    | Opaque(provider: string, data: Json)

  datatype Message = Message(role: Role, content: seq<ContentBlock>)

  datatype StopReason = EndTurn | ToolUseStop | MaxTokens | Other(reason: string)

  datatype Usage = Usage(inputTokens: nat, outputTokens: nat)

  datatype Response = Response(content: seq<ContentBlock>, stopReason: StopReason, usage: Usage)

  /** `Message::user_text`. */
  function UserText(text: string): Message {
    Message(User, [Text(text)])
  }

  /** `Message::tool_results`. */
  function ToolResults(results: seq<ContentBlock>): Message {
    Message(User, results)
  }

  /** The texts of the text blocks, in order. */
  function TextsIn(blocks: seq<ContentBlock>): seq<string> {
    if blocks == [] then []
    else (if blocks[0].Text? then [blocks[0].text] else []) + TextsIn(blocks[1..])
  }

  function Join(parts: seq<string>, sep: string): string {
    if parts == [] then ""
    else if |parts| == 1 then parts[0]
    else parts[0] + sep + Join(parts[1..], sep)
  }

  /** Joining puts the separator between any two neighbours, and nothing else anywhere. */
  lemma {:induction false} JoinMeaning(a: seq<string>, b: seq<string>, sep: string)
    requires a != [] && b != []
    ensures Join(a + b, sep) == Join(a, sep) + sep + Join(b, sep)
    ensures forall text :: Join([text], sep) == text
  {
    assert (a + b)[1..] == a[1..] + b;
    if |a| == 1 {
      assert a[1..] + b == b;
    } else {
      JoinMeaning(a[1..], b, sep);
      assert a[0] + sep + (Join(a[1..], sep) + sep + Join(b, sep)) == (a[0] + sep + Join(a[1..], sep)) + sep + Join(b, sep);
    }
  }

  /** The text of a message: nothing without text blocks; else each of them is in it. */
  lemma {:induction false} TextsInConcat(a: seq<ContentBlock>, b: seq<ContentBlock>)
    ensures TextsIn(a + b) == TextsIn(a) + TextsIn(b)
    ensures forall text :: TextsIn([Text(text)]) == [text]
    ensures forall c: ContentBlock :: !c.Text? ==> TextsIn([c]) == []
  {
    forall text
      ensures TextsIn([Text(text)]) == [text]
    {
      assert [Text(text)][1..] == [];
    }
    if a == [] {
      assert a + b == b;
    } else {
      TextsInConcat(a[1..], b);
      assert (a + b)[1..] == a[1..] + b;
    }
  }

  /** `Message::text`: the text blocks joined with newlines, tool traffic ignored. */
  function TextOf(m: Message): string {
    Join(TextsIn(m.content), "\n")
  }

  /** The ids of the tool calls a block list makes, in request order. */
  function UsesIn(blocks: seq<ContentBlock>): seq<string> {
    if blocks == [] then []
    else (if blocks[0].ToolUse? then [blocks[0].id] else []) + UsesIn(blocks[1..])
  }

  /** The ids of the tool calls a block list answers, in order. */
  function AnswersIn(blocks: seq<ContentBlock>): seq<string> {
    if blocks == [] then []
    else (if blocks[0].ToolResult? then [blocks[0].toolUseId] else []) + AnswersIn(blocks[1..])
  }

  function Uses(m: Message): seq<string> {
    if m.role.Assistant? then UsesIn(m.content) else []
  }

  /** A message that holds tool results and nothing else, for exactly `ids`, once each, in order. */
  predicate AnswersExactly(m: Message, ids: seq<string>) {
    m.role.User? && AnswersIn(m.content) == ids && |m.content| == |ids|
  }

  /** From index `from` on, every assistant message that calls tools is followed at once by a
      message that answers exactly those calls, once each and in request order. */
  ghost predicate PairedFrom(ms: seq<Message>, from: nat) {
    forall i {:trigger Uses(ms[i])} :: from <= i < |ms| && Uses(ms[i]) != [] ==>
      i + 1 < |ms| && AnswersExactly(ms[i + 1], Uses(ms[i]))
  }

  lemma PairedAppend(ms: seq<Message>, from: nat, ask: Message, reply: Message)
    requires PairedFrom(ms, from)
    requires AnswersExactly(reply, Uses(ask))
    ensures PairedFrom(ms + [ask, reply], from)
  {
    var all := ms + [ask, reply];
    forall i {:trigger Uses(all[i])} | from <= i < |all| && Uses(all[i]) != []
      ensures i + 1 < |all| && AnswersExactly(all[i + 1], Uses(all[i]))
    {
      if i < |ms| {
        assert all[i] == ms[i];
        assert all[i + 1] == ms[i + 1];
      }
    }
  }

  lemma PairedAppendOne(ms: seq<Message>, from: nat, m: Message)
    requires PairedFrom(ms, from)
    requires Uses(m) == []
    ensures PairedFrom(ms + [m], from)
  {
    var all := ms + [m];
    forall i {:trigger Uses(all[i])} | from <= i < |all| && Uses(all[i]) != []
      ensures i + 1 < |all| && AnswersExactly(all[i + 1], Uses(all[i]))
    {
      assert all[i] == ms[i];
      assert all[i + 1] == ms[i + 1];
    }
  }

  lemma {:induction false} UsesInConcat(a: seq<ContentBlock>, b: seq<ContentBlock>)
    ensures UsesIn(a + b) == UsesIn(a) + UsesIn(b)
  {
    if a == [] {
      assert a + b == b;
    } else {
      UsesInConcat(a[1..], b);
      assert (a + b)[1..] == a[1..] + b;
    }
  }

  lemma {:induction false} AnswersOfResults(blocks: seq<ContentBlock>, ids: seq<string>)
    requires |blocks| == |ids|
    requires forall i :: 0 <= i < |blocks| ==> blocks[i].ToolResult? && blocks[i].toolUseId == ids[i]
    ensures AnswersIn(blocks) == ids
  {
    if blocks != [] {
      AnswersOfResults(blocks[1..], ids[1..]);
      assert ids == [ids[0]] + ids[1..];
    }
  }
}
