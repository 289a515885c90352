/** The request side of the Anthropic adapter (crates/llm/src/anthropic.rs `to_wire`): blocks of other
    providers are dropped, and messages left empty with them. */
module AnthropicRequest {
  import opened Wrappers
  import opened Llm
  import opened Anthropic
  import Chat = ChatCompletions

  datatype WireMessage = WireMessage(role: Role, content: seq<WireBlock>)

  /** `block_to_wire`. */
  function ToBlock(b: ContentBlock): Option<WireBlock> {
    match b
    case Text(text) => Some(WireText(text))
    case ToolUse(id, name, input) => Some(WireToolUse(id, name, input))
    case ToolResult(id, content, isError) => Some(WireToolResult(id, content, isError))
    case Opaque(_, _) => None
  }

  function ToBlocks(blocks: seq<ContentBlock>): seq<WireBlock> {
    if blocks == [] then []
    else (if ToBlock(blocks[0]).Some? then [ToBlock(blocks[0]).value] else []) + ToBlocks(blocks[1..])
  }

  function ToMessages(ms: seq<Message>): seq<WireMessage> {
    if ms == [] then []
    else
      (if ToBlocks(ms[0].content) == [] then [] else [WireMessage(ms[0].role, ToBlocks(ms[0].content))])
      + ToMessages(ms[1..])
  }

  /** The block on the wire says what the block said: the same text, the same call, or the same result of the
      same call, an error exactly if it was one. */
  predicate Carries(w: WireBlock, b: ContentBlock) {
    && (b.Text? ==> w.WireText? && w.text == b.text)
    && (b.ToolUse? ==> w.WireToolUse? && w.id == b.id && w.name == b.name && w.input == b.input)
    && (b.ToolResult? ==> w.WireToolResult? && w.toolUseId == b.toolUseId && w.content == b.content
                          && (w.isError <==> b.isError))
  }

  /** How many blocks belong to no particular provider. */
  function Common(blocks: seq<ContentBlock>): nat {
    if blocks == [] then 0 else (if blocks[0].Opaque? then 0 else 1) + Common(blocks[1..])
  }

  lemma {:induction false} CommonBlocks(blocks: seq<ContentBlock>)
    ensures |ToBlocks(blocks)| == Common(blocks)
  {
    if blocks != [] {
      CommonBlocks(blocks[1..]);
    }
  }

  /** Every block that belongs to no particular provider is sent, at its place among those, saying what it
      said; and no other block is. */
  lemma {:induction false} BlockCarried(blocks: seq<ContentBlock>, j: nat)
    requires j < |blocks| && !blocks[j].Opaque?
    ensures |ToBlocks(blocks)| == Common(blocks) && Common(blocks[..j]) < Common(blocks)
    ensures Carries(ToBlocks(blocks)[Common(blocks[..j])], blocks[j])
  {
    CommonBlocks(blocks);
    if j > 0 {
      BlockCarried(blocks[1..], j - 1);
      assert blocks[..j][1..] == blocks[1..][..j - 1];
    }
  }

  function WireUses(blocks: seq<WireBlock>): seq<string> {
    if blocks == [] then []
    else (if blocks[0].WireToolUse? then [blocks[0].id] else []) + WireUses(blocks[1..])
  }

  function WireAnswers(blocks: seq<WireBlock>): seq<string> {
    if blocks == [] then []
    else (if blocks[0].WireToolResult? then [blocks[0].toolUseId] else []) + WireAnswers(blocks[1..])
  }

  /** What the API demands: calls are answered in the very next message, exactly and in order, and
      results come nowhere else; and no message is empty. */
  predicate WireFormed(ws: seq<WireMessage>)
    decreases |ws|
  {
    if ws == [] then true
    else if ws[0].role.Assistant? && WireUses(ws[0].content) != [] then
      |ws| >= 2 && ws[1].role.User? && ws[1].content != []
      && WireAnswers(ws[1].content) == WireUses(ws[0].content) && WireFormed(ws[2..])
    else
      ws[0].content != [] && (ws[0].role.User? ==> WireAnswers(ws[0].content) == []) && WireFormed(ws[1..])
  }

  lemma {:induction false} BlocksKeepCalls(blocks: seq<ContentBlock>)
    ensures WireUses(ToBlocks(blocks)) == UsesIn(blocks) && WireAnswers(ToBlocks(blocks)) == AnswersIn(blocks)
  {
    if blocks != [] {
      BlocksKeepCalls(blocks[1..]);
      var b := ToBlock(blocks[0]);
      if b.Some? {
        assert ToBlocks(blocks)[1..] == ToBlocks(blocks[1..]);
      } else {
        assert ToBlocks(blocks) == ToBlocks(blocks[1..]);
        assert UsesIn(blocks) == UsesIn(blocks[1..]) && AnswersIn(blocks) == AnswersIn(blocks[1..]);
      }
    }
  }

  /** Dropping blocks and empty messages never separates a call from its results. */
  lemma {:induction false} RequestKeepsPairing(ms: seq<Message>)
    requires Chat.WellFormed(ms)
    ensures WireFormed(ToMessages(ms))
    decreases |ms|
  {
    hide ToBlocks, UsesIn, AnswersIn, WireUses, WireAnswers;
    if ms != [] {
      BlocksKeepCalls(ms[0].content);
      NoBlocks();
      if ms[0].role.Assistant? && UsesIn(ms[0].content) != [] {
        BlocksKeepCalls(ms[1].content);
        RequestKeepsPairing(ms[2..]);
        var ask, reply := WireMessage(ms[0].role, ToBlocks(ms[0].content)), WireMessage(ms[1].role, ToBlocks(ms[1].content));
        assert ms[1..][1..] == ms[2..];
        assert ToMessages(ms) == [ask] + ([reply] + ToMessages(ms[2..]));
        assert ToMessages(ms)[2..] == ToMessages(ms[2..]);
      } else {
        RequestKeepsPairing(ms[1..]);
        if ToBlocks(ms[0].content) == [] {
          assert ToMessages(ms) == ToMessages(ms[1..]);
        } else {
          assert ToMessages(ms)[1..] == ToMessages(ms[1..]);
        }
      }
    }
  }

  lemma NoBlocks()
    ensures WireUses([]) == [] && WireAnswers([]) == []
  {
  }

  /** What an assistant message may hold that the response type of this adapter also holds. */
  function OwnBlocks(blocks: seq<ContentBlock>): seq<ContentBlock> {
    if blocks == [] then []
    else (if blocks[0].Text? || blocks[0].ToolUse? then [blocks[0]] else []) + OwnBlocks(blocks[1..])
  }

  /** Sent and read back, texts and calls are the same, in the same order. */
  lemma {:induction false} BlocksReturn(blocks: seq<ContentBlock>)
    ensures FromBlocks(ToBlocks(blocks)) == OwnBlocks(blocks)
  {
    if blocks != [] {
      BlocksReturn(blocks[1..]);
      var b := ToBlock(blocks[0]);
      if b.Some? {
        FromBlocksCons(b.value, ToBlocks(blocks[1..]));
        FromBlocksOne(b.value);
      } else {
        assert ToBlocks(blocks) == ToBlocks(blocks[1..]);
      }
    }
  }
}
