/** Tool calls and their outputs in the Codex input list (crates/llm/src/codex.rs `to_input`). */
module CodexPairing {
  import opened Wrappers
  import opened Llm
  import opened JsonRead
  import opened Codex
  import Chat = ChatCompletions

  predicate IsCall(item: Json) { TypeOf(item) == "function_call" }

  predicate IsOutput(item: Json) { TypeOf(item) == "function_call_output" }

  function CallId(item: Json): string { OrElse(AsStr(Get(item, "call_id")), "") }

  /** Every batch of calls is answered by one output per call, in order, before the next call and before
      the list ends; `open` are the calls not answered yet, `answering` says an answer has come. */
  predicate Balanced(items: seq<Json>, open: seq<string>, answering: bool) {
    if items == [] then open == []
    else if IsCall(items[0]) then !answering && Balanced(items[1..], open + [CallId(items[0])], false)
    else if IsOutput(items[0]) then
      open != [] && open[0] == CallId(items[0]) && Balanced(items[1..], open[1..], |open| > 1)
    else Balanced(items[1..], open, answering)
  }

  lemma Kinds(show: Json -> string, b: ContentBlock, role: string, parts: seq<Json>)
    ensures b.ToolUse? ==>
      var item := CallItem(b.id, b.name, show(b.input)); IsCall(item) && CallId(item) == b.id
    ensures b.ToolResult? ==>
      var item := OutputItem(b.toolUseId, Chat.OutputText(b.content, b.isError));
      IsOutput(item) && !IsCall(item) && CallId(item) == b.toolUseId
    ensures Replays(b) ==> !IsCall(b.data) && !IsOutput(b.data)
    ensures !IsCall(MessageItem(role, parts)) && !IsOutput(MessageItem(role, parts))
  {
  }

  // An item that is neither call nor output makes no difference.
  lemma {:induction false} OtherFirst(item: Json, later: seq<Json>, open: seq<string>, answering: bool)
    requires !IsCall(item) && !IsOutput(item)
    ensures Balanced([item] + later, open, answering) == Balanced(later, open, answering)
  {
    hide IsCall, IsOutput;
    assert ([item] + later)[1..] == later;
  }

  lemma {:induction false} CallFirst(item: Json, later: seq<Json>, open: seq<string>)
    requires IsCall(item)
    ensures Balanced([item] + later, open, false) == Balanced(later, open + [CallId(item)], false)
  {
    hide IsCall, IsOutput;
    assert ([item] + later)[1..] == later;
  }

  lemma {:induction false} OutputFirst(item: Json, later: seq<Json>, open: seq<string>, answering: bool)
    requires IsOutput(item) && !IsCall(item)
    requires open != [] && open[0] == CallId(item)
    ensures Balanced([item] + later, open, answering) == Balanced(later, open[1..], |open| > 1)
  {
    hide IsCall, IsOutput;
    assert ([item] + later)[1..] == later;
  }

  lemma FlushFirst(show: Json -> string, parts: seq<Json>, later: seq<Json>, open: seq<string>, answering: bool)
    ensures Balanced(Flush(parts) + later, open, answering) == Balanced(later, open, answering)
  {
    hide Balanced, IsCall, IsOutput, MessageItem;
    if parts == [] {
      assert [] + later == later;
    } else {
      Kinds(show, Text(""), "assistant", parts);
      OtherFirst(MessageItem("assistant", parts), later, open, answering);
    }
  }

  // An assistant message opens exactly its calls.
  lemma {:induction false} AssistantOpens(show: Json -> string, parts: seq<Json>, blocks: seq<ContentBlock>,
                                          later: seq<Json>, open: seq<string>)
    ensures Balanced(ItemsFrom(show, parts, blocks) + later, open, false) == Balanced(later, open + UsesIn(blocks), false)
    decreases |blocks|
  {
    hide Balanced, IsCall, IsOutput, MessageItem, CallItem, OutputText, Flush, ReplayableReasoning, CallId;
    if blocks == [] {
      FlushFirst(show, parts, later, open, false);
      assert open + [] == open;
    } else {
      var b, rest := blocks[0], blocks[1..];
      if b.Text? && b.text != "" {
        AssistantOpens(show, parts + [OutputText(b.text)], rest, later, open);
        assert UsesIn(blocks) == UsesIn(rest);
      } else if b.ToolUse? || Replays(b) {
        var item := if b.ToolUse? then CallItem(b.id, b.name, show(b.input)) else b.data;
        var more := ItemsFrom(show, [], rest) + later;
        Kinds(show, b, "assistant", parts);
        assert ItemsFrom(show, parts, blocks) + later == Flush(parts) + ([item] + more);
        FlushFirst(show, parts, [item] + more, open, false);
        if b.ToolUse? {
          CallFirst(item, more, open);
          AssistantOpens(show, [], rest, later, open + [b.id]);
          assert open + [b.id] + UsesIn(rest) == open + UsesIn(blocks);
        } else {
          OtherFirst(item, more, open, false);
          AssistantOpens(show, [], rest, later, open);
          assert UsesIn(blocks) == UsesIn(rest);
        }
      } else {
        AssistantOpens(show, parts, rest, later, open);
        assert UsesIn(blocks) == UsesIn(rest);
      }
    }
  }

  // The outputs of a message close exactly the calls they answer.
  lemma {:induction false} OutputsClose(show: Json -> string, blocks: seq<ContentBlock>, later: seq<Json>, answering: bool)
    requires AnswersIn(blocks) == [] ==> !answering
    ensures Balanced(Outputs(blocks) + later, AnswersIn(blocks), answering) == Balanced(later, [], false)
    decreases |blocks|
  {
    hide Balanced, IsCall, IsOutput, OutputItem, CallId, Chat.OutputText;
    if blocks == [] {
      assert [] + later == later;
    } else {
      var b, rest := blocks[0], blocks[1..];
      if b.ToolResult? {
        var item := OutputItem(b.toolUseId, Chat.OutputText(b.content, b.isError));
        Kinds(show, b, "user", []);
        assert Outputs(blocks) + later == [item] + (Outputs(rest) + later);
        assert AnswersIn(blocks)[1..] == AnswersIn(rest);
        OutputFirst(item, Outputs(rest) + later, AnswersIn(blocks), answering);
        OutputsClose(show, rest, later, |AnswersIn(blocks)| > 1);
      } else {
        OutputsClose(show, rest, later, answering);
        assert Outputs(blocks) == Outputs(rest) && AnswersIn(blocks) == AnswersIn(rest);
      }
    }
  }

  lemma UserAnswers(show: Json -> string, m: Message, later: seq<Json>)
    requires m.role.User?
    ensures Balanced(Items(show, m) + later, AnswersIn(m.content), false) == Balanced(later, [], false)
  {
    hide Balanced, Outputs, InputTexts, IsCall, IsOutput, MessageItem;
    assert Outputs(m.content) + UserSays(m.content) + later == Outputs(m.content) + (UserSays(m.content) + later);
    OutputsClose(show, m.content, UserSays(m.content) + later, false);
    if InputTexts(m.content) == [] {
      assert [] + later == later;
    } else {
      Kinds(show, Text(""), "user", InputTexts(m.content));
      OtherFirst(MessageItem("user", InputTexts(m.content)), later, [], false);
    }
  }

  /** Every well-formed transcript becomes a balanced item list. */
  lemma {:induction false} ReplayKeepsPairing(show: Json -> string, ms: seq<Message>)
    requires Chat.WellFormed(ms)
    ensures Balanced(AllItems(show, ms), [], false)
    decreases |ms|
  {
    if ms != [] {
      hide Balanced, Items, ItemsFrom, UsesIn, AnswersIn;
      var m := ms[0];
      if m.role.Assistant? && UsesIn(m.content) != [] {
        var later := AllItems(show, ms[2..]);
        ReplayKeepsPairing(show, ms[2..]);
        assert ms[1..][1..] == ms[2..];
        AssistantItems(show, m);
        AssistantOpens(show, [], m.content, Items(show, ms[1]) + later, []);
        assert [] + UsesIn(m.content) == UsesIn(m.content);
        UserAnswers(show, ms[1], later);
      } else {
        var later := AllItems(show, ms[1..]);
        ReplayKeepsPairing(show, ms[1..]);
        if m.role.Assistant? {
          AssistantItems(show, m);
          AssistantOpens(show, [], m.content, later, []);
          assert [] + UsesIn(m.content) == [];
        } else {
          UserAnswers(show, m, later);
        }
      }
    }
  }

  lemma AssistantItems(show: Json -> string, m: Message)
    requires m.role.Assistant?
    ensures Items(show, m) == ItemsFrom(show, [], m.content)
  {
  }
}
